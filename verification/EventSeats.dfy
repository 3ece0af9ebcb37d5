/** The event_seats table: its rows and the compare-and-set statements that are
    the only writers of seat state. */
module EventSeats {
  import opened Sets
  import opened Wrappers

  type HoldId = nat
  type OrderId = nat
  type Time = int

  datatype Key = Key(event: int, seat: int)

  const AVAILABLE := 0
  const HELD := 1
  const BOOKED := 2
  const PENDING_PAYMENT := 3

  datatype Row = Row(ordinal: nat, rowId: int, sellable: bool, price: int,
                     status: int, hold: Option<HoldId>, heldBy: Option<string>, expires: Option<Time>,
                     holdPrice: Option<int>, booking: Option<OrderId>, fence: nat)

  type Table = map<Key, Row>

  /** What a committed transaction tells the outbox. */
  datatype Kind = SeatHeld | SeatReleased | SeatBooked
  datatype SeatEvent = SeatEvent(kind: Kind, key: Key)

  predicate OnHold(r: Row) {
    r.status == HELD || r.status == PENDING_PAYMENT
  }

  // ---- Row guards and updates, one pair per statement ----

  predicate Holdable(r: Row, now: Time) {
    r.sellable && (r.status == AVAILABLE || (OnHold(r) && r.expires.Some? && r.expires.value < now))
  }

  function HeldRow(r: Row, hold: HoldId, user: string, until: Time): Row {
    r.(status := HELD, hold := Some(hold), heldBy := Some(user), expires := Some(until),
       holdPrice := Some(r.price), fence := r.fence + 1)
  }

  predicate Releasable(r: Row, hold: HoldId) {
    OnHold(r) && r.hold == Some(hold)
  }

  function FreedRow(r: Row): Row {
    r.(status := AVAILABLE, hold := None, heldBy := None, expires := None, holdPrice := None)
  }

  predicate Extendable(r: Row, hold: HoldId, now: Time) {
    OnHold(r) && r.hold == Some(hold) && r.expires.Some? && r.expires.value > now
  }

  function ExtendedRow(r: Row, until: Time): Row
    requires r.expires.Some?
  {
    r.(status := PENDING_PAYMENT, expires := Some(if r.expires.value < until then until else r.expires.value))
  }

  predicate Confirmable(r: Row, hold: HoldId, fence: int, now: Time) {
    Extendable(r, hold, now) && r.fence == fence
  }

  function BookedRow(r: Row, order: OrderId): Row {
    r.(status := BOOKED, booking := Some(order), hold := None, heldBy := None, expires := None)
  }

  // ---- Statements ----

  predicate Listed(k: Key, event: int, seats: seq<int>) {
    k.event == event && k.seat in seats
  }

  predicate AcquireHits(t: Table, event: int, seats: seq<int>, now: Time, k: Key) {
    k in t && Listed(k, event, seats) && Holdable(t[k], now)
  }

  function Acquired(t: Table, event: int, seats: seq<int>, hold: HoldId, user: string, now: Time, ttl: int): (t': Table)
    ensures t'.Keys == t.Keys
  {
    map k | k in t :: if AcquireHits(t, event, seats, now, k) then HeldRow(t[k], hold, user, now + ttl) else t[k]
  }

  predicate ReleaseHits(t: Table, event: int, seats: seq<int>, hold: HoldId, k: Key) {
    k in t && Listed(k, event, seats) && Releasable(t[k], hold)
  }

  function Released(t: Table, event: int, seats: seq<int>, hold: HoldId): (t': Table)
    ensures t'.Keys == t.Keys
  {
    map k | k in t :: if ReleaseHits(t, event, seats, hold, k) then FreedRow(t[k]) else t[k]
  }

  predicate ExtendHits(t: Table, event: int, seats: seq<int>, hold: HoldId, now: Time, k: Key) {
    k in t && Listed(k, event, seats) && Extendable(t[k], hold, now)
  }

  function Extended(t: Table, event: int, seats: seq<int>, hold: HoldId, now: Time, secs: int): (t': Table)
    ensures t'.Keys == t.Keys
  {
    map k | k in t :: if ExtendHits(t, event, seats, hold, now, k) then ExtendedRow(t[k], now + secs) else t[k]
  }

  /** The seat is offered with the fence its row carries. */
  predicate FenceOffered(seats: seq<int>, fences: seq<int>, seat: int, fence: int)
    requires |seats| == |fences|
  {
    exists i :: 0 <= i < |seats| && seats[i] == seat && fences[i] == fence
  }

  predicate ConfirmHits(t: Table, event: int, seats: seq<int>, fences: seq<int>, hold: HoldId, now: Time, k: Key)
    requires |seats| == |fences|
  {
    k in t && k.event == event && FenceOffered(seats, fences, k.seat, t[k].fence)
        && Confirmable(t[k], hold, t[k].fence, now)
  }

  function Confirmed(t: Table, event: int, seats: seq<int>, fences: seq<int>, hold: HoldId, order: OrderId,
                     now: Time): (t': Table)
    requires |seats| == |fences|
    ensures t'.Keys == t.Keys
  {
    map k | k in t :: if ConfirmHits(t, event, seats, fences, hold, now, k) then BookedRow(t[k], order) else t[k]
  }

  // ---- Row counts ----

  function AcquireCount(t: Table, event: int, seats: seq<int>, now: Time): nat {
    |set k | k in t && AcquireHits(t, event, seats, now, k)|
  }

  function ReleaseCount(t: Table, event: int, seats: seq<int>, hold: HoldId): nat {
    |set k | k in t && ReleaseHits(t, event, seats, hold, k)|
  }

  function ExtendCount(t: Table, event: int, seats: seq<int>, hold: HoldId, now: Time): nat {
    |set k | k in t && ExtendHits(t, event, seats, hold, now, k)|
  }

  function ConfirmCount(t: Table, event: int, seats: seq<int>, fences: seq<int>, hold: HoldId, now: Time): nat
    requires |seats| == |fences|
  {
    |set k | k in t && ConfirmHits(t, event, seats, fences, hold, now, k)|
  }

  // ---- Transactions: the statement, its rowcount test and its outbox rows ----

  datatype Tx = Tx(table: Table, events: seq<SeatEvent>)

  function EventsFor(kind: Kind, event: int, seats: seq<int>): (es: seq<SeatEvent>)
    ensures |es| == |seats|
    ensures forall i | 0 <= i < |seats| :: es[i] == SeatEvent(kind, Key(event, seats[i]))
  {
    seq(|seats|, i requires 0 <= i < |seats| => SeatEvent(kind, Key(event, seats[i])))
  }

  /** All the seats or none. */
  function AcquireTx(t: Table, event: int, seats: seq<int>, hold: HoldId, user: string, now: Time, ttl: int): Tx {
    if AcquireCount(t, event, seats, now) == |seats|
    then Tx(Acquired(t, event, seats, hold, user, now, ttl), EventsFor(SeatHeld, event, seats))
    else Tx(t, [])
  }

  /** Whatever matches; once anything does, every listed seat is announced. */
  function ReleaseTx(t: Table, event: int, seats: seq<int>, hold: HoldId): Tx {
    Tx(Released(t, event, seats, hold),
       if ReleaseCount(t, event, seats, hold) > 0 then EventsFor(SeatReleased, event, seats) else [])
  }

  function ConfirmTx(t: Table, event: int, seats: seq<int>, fences: seq<int>, hold: HoldId, order: OrderId,
                     now: Time): Tx
    requires |seats| == |fences|
  {
    if ConfirmCount(t, event, seats, fences, hold, now) == |seats|
    then Tx(Confirmed(t, event, seats, fences, hold, order, now), EventsFor(SeatBooked, event, seats))
    else Tx(t, [])
  }

  // ---- What the row counts mean ----

  predicate NoDuplicates(s: seq<int>) {
    forall i, j | 0 <= i < j < |s| :: s[i] != s[j]
  }

  function Listing(event: int, seats: seq<int>): set<Key> {
    set s | s in seats :: Key(event, s)
  }

  lemma {:induction false} ListingSize(event: int, seats: seq<int>)
    ensures |Listing(event, seats)| <= |seats|
    ensures NoDuplicates(seats) <==> |Listing(event, seats)| == |seats|
  {
    if seats == [] {
    } else {
      var last := |seats| - 1;
      var init := seats[..last];
      ListingSize(event, init);
      assert Listing(event, seats) == Listing(event, init) + {Key(event, seats[last])};
      if seats[last] in init {
        assert Listing(event, seats) == Listing(event, init);
        var i :| 0 <= i < last && seats[i] == seats[last];
        assert !NoDuplicates(seats);
      } else {
        assert Key(event, seats[last]) !in Listing(event, init);
        assert NoDuplicates(seats) <==> NoDuplicates(init) by {
          if NoDuplicates(init) {
            forall i, j | 0 <= i < j < |seats| ensures seats[i] != seats[j] {
              if j == last { assert seats[i] in init; } else { assert init[i] != init[j]; }
            }
          }
        }
      }
    }
  }

  /** A rowcount equal to the number of seats asked for means each of them,
      listed once, matched. */
  lemma FullCount(event: int, seats: seq<int>, hits: set<Key>)
    requires forall k | k in hits :: Listed(k, event, seats)
    ensures |hits| == |seats| <==> NoDuplicates(seats) && hits == Listing(event, seats)
  {
    ListingSize(event, seats);
    forall k | k in hits ensures k in Listing(event, seats) { assert k == Key(event, k.seat); }
    SubsetSmaller(hits, Listing(event, seats));
    if |hits| == |seats| { SubsetFills(hits, Listing(event, seats)); }
  }

  lemma AcquireAllOrNothing(t: Table, event: int, seats: seq<int>, now: Time)
    ensures AcquireCount(t, event, seats, now) == |seats|
            <==> NoDuplicates(seats) && forall s | s in seats :: Key(event, s) in t && Holdable(t[Key(event, s)], now)
  {
    var hits := set k | k in t && AcquireHits(t, event, seats, now, k);
    FullCount(event, seats, hits);
    if NoDuplicates(seats) && forall s | s in seats :: Key(event, s) in t && Holdable(t[Key(event, s)], now) {
      assert hits == Listing(event, seats);
    }
    if hits == Listing(event, seats) {
      forall s | s in seats ensures Key(event, s) in t && Holdable(t[Key(event, s)], now) {
        assert Key(event, s) in hits;
      }
    }
  }

  lemma ConfirmAllOrNothing(t: Table, event: int, seats: seq<int>, fences: seq<int>, hold: HoldId, now: Time)
    requires |seats| == |fences|
    ensures ConfirmCount(t, event, seats, fences, hold, now) == |seats|
            <==> NoDuplicates(seats)
                 && forall i | 0 <= i < |seats| :: Key(event, seats[i]) in t && Confirmable(t[Key(event, seats[i])], hold, fences[i], now)
  {
    var hits := set k | k in t && ConfirmHits(t, event, seats, fences, hold, now, k);
    FullCount(event, seats, hits);
    if NoDuplicates(seats) && hits == Listing(event, seats) {
      forall i | 0 <= i < |seats| ensures Key(event, seats[i]) in t && Confirmable(t[Key(event, seats[i])], hold, fences[i], now) {
        var k := Key(event, seats[i]);
        assert k in hits;
        var j :| 0 <= j < |seats| && seats[j] == k.seat && fences[j] == t[k].fence;
        assert j == i;
      }
    }
    if NoDuplicates(seats)
       && forall i | 0 <= i < |seats| :: Key(event, seats[i]) in t && Confirmable(t[Key(event, seats[i])], hold, fences[i], now) {
      forall k | k in Listing(event, seats) ensures k in hits {
        var i :| 0 <= i < |seats| && seats[i] == k.seat;
        assert k == Key(event, seats[i]);
      }
      assert hits == Listing(event, seats);
    }
  }

  lemma ExtendAll(t: Table, event: int, seats: seq<int>, hold: HoldId, now: Time)
    requires NoDuplicates(seats)
    ensures ExtendCount(t, event, seats, hold, now) < |seats|
            <==> exists s :: s in seats && !(Key(event, s) in t && Extendable(t[Key(event, s)], hold, now))
  {
    var hits := set k | k in t && ExtendHits(t, event, seats, hold, now, k);
    FullCount(event, seats, hits);
    ListingSize(event, seats);
    SubsetSmaller(hits, Listing(event, seats));
    if hits == Listing(event, seats) {
      forall s | s in seats ensures Key(event, s) in t && Extendable(t[Key(event, s)], hold, now) {
        assert Key(event, s) in hits;
      }
    }
    if forall s | s in seats :: Key(event, s) in t && Extendable(t[Key(event, s)], hold, now) {
      assert hits == Listing(event, seats);
    }
  }

  lemma ReleaseAny(t: Table, event: int, seats: seq<int>, hold: HoldId)
    ensures ReleaseCount(t, event, seats, hold) > 0
            <==> exists s :: s in seats && Key(event, s) in t && Releasable(t[Key(event, s)], hold)
  {
    var hits := set k | k in t && ReleaseHits(t, event, seats, hold, k);
    if s :| s in seats && Key(event, s) in t && Releasable(t[Key(event, s)], hold) {
      assert Key(event, s) in hits;
    }
    if hits != {} {
      var k :| k in hits;
      assert k.seat in seats && Key(event, k.seat) in t;
    }
  }
}
