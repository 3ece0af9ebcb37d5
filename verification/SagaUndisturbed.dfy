/** Checkouts nobody interferes with, statement by statement: the way to a ticket and the
    way to other seats. */
module SagaUndisturbed {
  import opened Wrappers
  import opened EventSeats
  import opened Payment
  import BestAvailable
  import Inventory
  import opened Saga
  import opened SagaPaths

  /** A new order whose seats are all still on its hold. */
  ghost predicate Holding(t: Table, now: Time, s: OrderState) {
    && s.pc == ReadOrder && s.row.status == PENDING && s.row.hold == s.placed && !s.row.reallocated
    && s.payments == map[] && s.captured == {} && s.row.seats != [] && NoDuplicates(s.row.seats)
    && HoldAlive(t, now, s.row)
  }

  function HoldExtended(t: Table, now: Time, ord: Order): Table {
    Extended(t, ord.event, Inventory.Normalised(ord.seats), ord.hold, now, EXTEND_SECONDS)
  }

  /** The way to the charge, the hold extended first. */
  function ToCharge(t: Table, now: Time, s: OrderState): seq<Stop> {
    var t1 := HoldExtended(t, now, s.row);
    var authorizing := s.(row := s.row.(status := AUTHORIZING));
    var pay := PaymentRow(PayPending, s.row.amount, false);
    [Stop(t, s), Stop(t, s.(pc := MarkAuthorizing(s.row))), Stop(t, authorizing.(pc := ExtendHold(s.row))),
     Stop(t1, authorizing.(pc := InsertPayment(s.row))),
     Stop(t1, authorizing.(payments := map[s.row.hold := pay], pc := ChargeCard(s.row, pay)))]
  }

  lemma OpeningHops(t: Table, now: Time, o: OrderId, s: OrderState, lim: Limits, c: Choice)
    requires s.pc == ReadOrder && s.row.status == PENDING
    ensures var way := ToCharge(t, now, s); Hop(now, o, lim, c, way[0], way[1]) && Hop(now, o, lim, c, way[1], way[2])
  {
  }

  lemma InsertHops(t: Table, now: Time, o: OrderId, s: OrderState, lim: Limits, c: Choice)
    requires s.row.hold !in s.payments && s.payments == map[] && Extends(t, now, s.row)
    ensures var way := ToCharge(t, now, s); Hop(now, o, lim, c, way[2], way[3]) && Hop(now, o, lim, c, way[3], way[4])
  {
  }

  lemma ReachesCharge(t: Table, now: Time, o: OrderId, s: OrderState, lim: Limits, c: Choice)
    requires Holding(t, now, s)
    ensures Path(now, o, lim, c, ToCharge(t, now, s))
  {
    ExtendsIff(t, now, s.row);
    OpeningHops(t, now, o, s, lim, c);
    InsertHops(t, now, o, s, lim, c);
  }

  /** The way from a captured charge to the booking. */
  function ToBooking(t: Table, now: Time, o: OrderId, s: OrderState, pay: PaymentRow): seq<Stop> {
    var ord, pay' := s.row.(status := PENDING), pay.(status := PayCaptured);
    var charged := s.(captured := s.captured + {s.row.hold});
    var recorded := charged.(payments := s.payments[s.row.hold := PaymentRow(PayCaptured, pay.amount, true)]);
    var confirming := recorded.(row := s.row.(status := CONFIRMING));
    var fences := CurrentFences(t, s.row.event, s.row.seats, s.row.hold);
    [Stop(t, s.(pc := ChargeCard(ord, pay))), Stop(t, charged.(pc := RecordCharge(ord, pay, ChargeResult(Captured, true, true)))),
     Stop(t, recorded.(pc := MarkConfirming(ord, pay'))), Stop(t, confirming.(pc := ReadFences(ord, pay'))),
     Stop(t, confirming.(pc := ConfirmHeld(ord, pay', fences))),
     Stop(Confirmed(t, s.row.event, s.row.seats, fences, s.row.hold, o, now), confirming.(pc := MarkConfirmed))]
  }

  predicate CardWorks(c: Choice) {
    !c.dice.fails && !c.dice.ambiguous && !c.dice.timesOut
  }

  lemma ChargeHops(t: Table, now: Time, o: OrderId, s: OrderState, pay: PaymentRow, lim: Limits, c: Choice)
    requires CardWorks(c) && s.row.hold !in s.captured
    ensures var way := ToBooking(t, now, o, s, pay);
        Hop(now, o, lim, c, way[0], way[1]) && Hop(now, o, lim, c, way[1], way[2])
  {
  }

  lemma ReachesFences(t: Table, now: Time, o: OrderId, s: OrderState, pay: PaymentRow, lim: Limits, c: Choice)
    requires CardWorks(c) && s.row.hold !in s.captured
    ensures var way := ToBooking(t, now, o, s, pay);
            Hop(now, o, lim, c, way[0], way[1]) && Hop(now, o, lim, c, way[1], way[2])
                && Hop(now, o, lim, c, way[2], way[3])
  {
    ChargeHops(t, now, o, s, pay, lim, c);
  }

  lemma AllConfirm(t: Table, now: Time, o: OrderId, row: Order)
    requires NoDuplicates(row.seats)
    requires HoldAlive(t, now, row)
    ensures var fences := CurrentFences(t, row.event, row.seats, row.hold);
            ConfirmCount(t, row.event, row.seats, fences, row.hold, now) == |row.seats|
            && Listing(row.event, row.seats) <= BookedTo(Confirmed(t, row.event, row.seats, fences, row.hold, o, now),
                                                         o)
  {
    var fences := CurrentFences(t, row.event, row.seats, row.hold);
    forall i | 0 <= i < |row.seats|
      ensures Key(row.event, row.seats[i]) in t
          && Confirmable(t[Key(row.event, row.seats[i])], row.hold, fences[i], now)
    {
      assert row.seats[i] in row.seats;
    }
    ConfirmAllOrNothing(t, row.event, row.seats, fences, row.hold, now);
    ConfirmBooks(t, row.event, row.seats, fences, row.hold, o, now);
  }

  lemma ReachesBooking(t: Table, now: Time, o: OrderId, s: OrderState, pay: PaymentRow, lim: Limits, c: Choice)
    requires NoDuplicates(s.row.seats)
    requires HoldAlive(t, now, s.row)
    ensures var way := ToBooking(t, now, o, s, pay);
        Hop(now, o, lim, c, way[3], way[4]) && Hop(now, o, lim, c, way[4], way[5])
    ensures Listing(s.row.event, s.row.seats) <= BookedTo(ToBooking(t, now, o, s, pay)[5].table, o)
  {
    AllConfirm(t, now, o, s.row);
  }

  lemma StillExtendable(t: Table, now: Time, ord: Order)
    requires HoldAlive(t, now, ord)
    ensures HoldAlive(HoldExtended(t, now, ord), now, ord)
  {
  }

  /** The way from the booking to the end. */
  function ToTicket(t: Table, s: OrderState): seq<Stop> {
    [Stop(t, s.(pc := MarkConfirmed)), Stop(t, s.(row := s.row.(status := CONFIRMED), pc := MarkTicketed)),
     Stop(t, s.(row := s.row.(status := TICKETED), pc := Idle))]
  }

  lemma BookingPath(t: Table, now: Time, o: OrderId, s: OrderState, pay: PaymentRow, lim: Limits, c: Choice)
    requires CardWorks(c) && s.row.hold !in s.captured && pay.status == PayPending && NoDuplicates(s.row.seats)
    requires HoldAlive(t, now, s.row)
    ensures Path(now, o, lim, c, ToBooking(t, now, o, s, pay))
    ensures Listing(s.row.event, s.row.seats) <= BookedTo(ToBooking(t, now, o, s, pay)[5].table, o)
  {
    ReachesFences(t, now, o, s, pay, lim, c);
    ReachesBooking(t, now, o, s, pay, lim, c);
  }

  lemma TicketPath(t: Table, now: Time, o: OrderId, s: OrderState, lim: Limits, c: Choice)
    ensures Path(now, o, lim, c, ToTicket(t, s))
  {
  }

  /** The whole way, each part going on where the one before it ended. */
  function ToEnd(t: Table, now: Time, o: OrderId, s: OrderState): seq<Stop> {
    var charge := ToCharge(t, now, s)[4];
    var booking := ToBooking(charge.table, now, o, charge.state, PaymentRow(PayPending, s.row.amount, false));
    ToCharge(t, now, s) + booking[1..] + ToTicket(booking[5].table, booking[5].state)[1..]
  }

  /** The order when its seats are to be confirmed. */
  function AtConfirm(t: Table, now: Time, s: OrderState): Stop {
    var t1 := HoldExtended(t, now, s.row);
    Stop(t1, s.(row := s.row.(status := CONFIRMING), captured := s.captured + {s.row.hold},
                payments := map[s.row.hold := PaymentRow(PayCaptured, s.row.amount, true)],
                pc := ConfirmHeld(s.row, PaymentRow(PayCaptured, s.row.amount, false),
                                  CurrentFences(t1, s.row.event, s.row.seats, s.row.hold))))
  }

  /** Left alone, with its hold alive and a card that works, a new order goes through
      eleven statements and ends ticketed: charged once under its own key, on a table
      where every one of its seats is booked to it. */
  lemma UndisturbedTickets(t: Table, now: Time, o: OrderId, s: OrderState, lim: Limits, c: Choice)
    requires Holding(t, now, s) && CardWorks(c)
    ensures var way := ToEnd(t, now, o, s);
            && |way| == 12 && way[0] == Stop(t, s) && Walk(now, o, lim, c, way)
            && way[8] == AtConfirm(t, now, s)
            && way[9].state == s.(row := s.row.(status := CONFIRMING), captured := {s.placed}, pc := MarkConfirmed,
                                  payments := map[s.placed := PaymentRow(PayCaptured, s.row.amount, true)])
            && Listing(s.row.event, s.row.seats) <= BookedTo(way[9].table, o)
            && way[11].table == way[9].table && way[11].state.pc == Idle
            && way[11].state.row == s.row.(status := TICKETED) && way[11].state.captured == {s.placed}
  {
    NeverSearches(t, now, o, s);
    WayHops(t, now, o, s, lim, c);
    WayStops(t, now, o, s);
  }

  lemma WayHops(t: Table, now: Time, o: OrderId, s: OrderState, lim: Limits, c: Choice)
    requires Holding(t, now, s) && CardWorks(c)
    ensures Path(now, o, lim, c, ToEnd(t, now, o, s))
    ensures Listing(s.row.event, s.row.seats) <= BookedTo(ToEnd(t, now, o, s)[9].table, o)
  {
    var charge := ToCharge(t, now, s)[4];
    var pay := PaymentRow(PayPending, s.row.amount, false);
    var booking := ToBooking(charge.table, now, o, charge.state, pay);
    ReachesCharge(t, now, o, s, lim, c);
    StillExtendable(t, now, s.row);
    BookingPath(charge.table, now, o, charge.state, pay, lim, c);
    TicketPath(booking[5].table, now, o, booking[5].state, lim, c);
    assert charge.state.row.(status := PENDING) == s.row;
    assert charge == booking[0] && booking[5] == ToTicket(booking[5].table, booking[5].state)[0];
    PathChains(now, o, lim, c, ToCharge(t, now, s), booking);
    PathChains(now, o, lim, c, ToCharge(t, now, s) + booking[1..], ToTicket(booking[5].table, booking[5].state));
  }

  lemma JoinedAt<T>(xs: seq<T>, ys: seq<T>, zs: seq<T>)
    requires |xs| == 5 && |ys| == 6 && |zs| == 3
    ensures var all := xs + ys[1..] + zs[1..];
            |all| == 12 && all[0] == xs[0] && all[8] == ys[4] && all[9] == ys[5] && all[11] == zs[2]
  {
  }

  lemma BookingStops(t: Table, now: Time, o: OrderId, s: OrderState)
    requires Holding(t, now, s)
    ensures var charge := ToCharge(t, now, s)[4];
            var booking := ToBooking(charge.table, now, o, charge.state, PaymentRow(PayPending, s.row.amount, false));
            && booking[4] == AtConfirm(t, now, s)
            && booking[5].state == s.(row := s.row.(status := CONFIRMING), captured := {s.placed}, pc := MarkConfirmed,
                                      payments := map[s.placed := PaymentRow(PayCaptured, s.row.amount, true)])
  {
  }

  lemma WayStops(t: Table, now: Time, o: OrderId, s: OrderState)
    requires Holding(t, now, s)
    ensures var way := ToEnd(t, now, o, s);
            && |way| == 12 && way[0] == Stop(t, s)
            && way[8] == AtConfirm(t, now, s)
            && way[9].state == s.(row := s.row.(status := CONFIRMING), captured := {s.placed}, pc := MarkConfirmed,
                                  payments := map[s.placed := PaymentRow(PayCaptured, s.row.amount, true)])
            && way[11].table == way[9].table && way[11].state.pc == Idle
            && way[11].state.row == s.row.(status := TICKETED) && way[11].state.captured == {s.placed}
  {
    var charge := ToCharge(t, now, s)[4];
    var booking := ToBooking(charge.table, now, o, charge.state, PaymentRow(PayPending, s.row.amount, false));
    JoinedAt(ToCharge(t, now, s), booking, ToTicket(booking[5].table, booking[5].state));
    BookingStops(t, now, o, s);
  }

  lemma WaySeats(t: Table, now: Time, o: OrderId, s: OrderState)
    ensures |ToEnd(t, now, o, s)| == 12 && SameSeats(t, ToEnd(t, now, o, s)[9].table)
  {
  }

  ghost predicate SameSeats(t: Table, t': Table) {
    t'.Keys == t.Keys && forall k | k in t :: t'[k].ordinal == t[k].ordinal
  }

  predicate SeatSearch(pc: Pc) {
    pc.SearchSeats? || pc.AcquireRun?
  }

  lemma NeverSearches(t: Table, now: Time, o: OrderId, s: OrderState)
    requires s.pc == ReadOrder
    ensures |ToEnd(t, now, o, s)| == 12 && forall i | 0 <= i < 12 :: !SeatSearch(ToEnd(t, now, o, s)[i].state.pc)
  {
  }

  /** Two paths, the second starting where the first ends. */
  lemma PathChains(now: Time, o: OrderId, lim: Limits, c: Choice, xs: seq<Stop>, ys: seq<Stop>)
    requires Path(now, o, lim, c, xs) && Path(now, o, lim, c, ys) && xs != [] && |ys| > 1 && xs[|xs| - 1] == ys[0]
    ensures Path(now, o, lim, c, xs + ys[1..])
  {
    forall i | 0 < i < |ys[1..]| ensures Hop(now, o, lim, c, ys[1..][i - 1], ys[1..][i]) {
      assert Hop(now, o, lim, c, ys[i], ys[i + 1]);
    }
    assert Hop(now, o, lim, c, ys[0], ys[1]);
    PathJoins(now, o, lim, c, xs, ys[1..]);
  }

  // ---- Other seats first ----

  /** Free seats the search would hold first. */
  ghost predicate FirstRunFree(t: Table, now: Time, ord: Order, lim: Limits, c: Choice) {
    var runs := BestAvailable.Runs(c.candidates, |ord.seats|);
    && ord.seats != [] && |ord.seats| <= lim.maxSeats && runs != [] && !c.blocked && lim.holdTtl > 0
    && forall seat | seat in runs[0] :: Key(ord.event, seat) in t && Holdable(t[Key(ord.event, seat)], now)
  }

  function RunHeld(t: Table, now: Time, ord: Order, run: seq<int>, lim: Limits, c: Choice): Table {
    Acquired(t, ord.event, Inventory.Normalised(run), c.freshHold, ord.user, now, lim.holdTtl)
  }

  function RunBooked(t: Table, now: Time, o: OrderId, ord: Order, run: seq<int>, lim: Limits, c: Choice): Table {
    var ids, t1 := Inventory.Normalised(run), RunHeld(t, now, ord, run, lim, c);
    Confirmed(t1, ord.event, ids, FencesOf(t1, ord.event, ids), c.freshHold, o, now)
  }

  /** From the search to the order's new seats, written down; ord is the order as the
      saga read it. */
  function ToOtherSeats(t: Table, now: Time, o: OrderId, s: OrderState, ord: Order, pay: PaymentRow, lim: Limits,
                        c: Choice): seq<Stop>
    requires BestAvailable.Runs(c.candidates, |ord.seats|) != []
  {
    var runs := BestAvailable.Runs(c.candidates, |ord.seats|);
    var run := runs[0];
    var ids, t1, t2 := Inventory.Normalised(run), RunHeld(t, now, ord, run, lim, c), RunBooked(t, now, o, ord, run, lim, c);
    var moved := s.(row := s.row.(hold := c.freshHold, seats := ids, reallocated := true));
    [Stop(t, s.(pc := SearchSeats(ord, pay))), Stop(t, s.(pc := AcquireRun(ord, pay, runs, 0))),
     Stop(t1, s.(pc := ConfirmRun(ord, pay, run, c.freshHold, ids, FencesOf(t1, ord.event, ids)))),
     Stop(t2, s.(pc := Reallocate(run, c.freshHold, ids))), Stop(t2, moved.(pc := MarkConfirmed))]
  }

  lemma RunAcquires(t: Table, now: Time, o: OrderId, ord: Order, run: seq<int>, lim: Limits, c: Choice)
    requires !c.blocked && lim.holdTtl > 0
    requires forall seat | seat in run :: Key(ord.event, seat) in t && Holdable(t[Key(ord.event, seat)], now)
    ensures Acquires(t, now, ord, run, c)
    ensures var ids, t1 := Inventory.Normalised(run), RunHeld(t, now, ord, run, lim, c);
            ConfirmCount(t1, ord.event, ids, FencesOf(t1, ord.event, ids), c.freshHold, now) == |ids|
            && Listing(ord.event, ids) <= BookedTo(RunBooked(t, now, o, ord, run, lim, c), o)
  {
    var ids, t1 := Inventory.Normalised(run), RunHeld(t, now, ord, run, lim, c);
    Inventory.NormalisedSound(run);
    AcquireAllOrNothing(t, ord.event, ids, now);
    var fences := FencesOf(t1, ord.event, ids);
    forall i | 0 <= i < |ids|
      ensures Key(ord.event, ids[i]) in t1 && Confirmable(t1[Key(ord.event, ids[i])], c.freshHold, fences[i], now)
    {
      assert ids[i] in ids && Key(ord.event, ids[i]) in t;
    }
    ConfirmAllOrNothing(t1, ord.event, ids, fences, c.freshHold, now);
    ConfirmBooks(t1, ord.event, ids, fences, c.freshHold, o, now);
  }

  lemma SearchHops(t: Table, now: Time, o: OrderId, s: OrderState, ord: Order, pay: PaymentRow, lim: Limits, c: Choice)
    requires FirstRunFree(t, now, ord, lim, c)
    ensures var way := ToOtherSeats(t, now, o, s, ord, pay, lim, c);
            Hop(now, o, lim, c, way[0], way[1]) && Hop(now, o, lim, c, way[1], way[2])
  {
    RunAcquires(t, now, o, ord, BestAvailable.Runs(c.candidates, |ord.seats|)[0], lim, c);
  }

  lemma BookHop(t: Table, now: Time, o: OrderId, s: OrderState, ord: Order, pay: PaymentRow, lim: Limits, c: Choice)
    requires FirstRunFree(t, now, ord, lim, c)
    ensures var way := ToOtherSeats(t, now, o, s, ord, pay, lim, c); Hop(now, o, lim, c, way[2], way[3])
  {
    RunAcquires(t, now, o, ord, BestAvailable.Runs(c.candidates, |ord.seats|)[0], lim, c);
  }

  lemma RecordHop(t: Table, now: Time, o: OrderId, s: OrderState, ord: Order, pay: PaymentRow, lim: Limits, c: Choice)
    requires BestAvailable.Runs(c.candidates, |ord.seats|) != []
    ensures var way := ToOtherSeats(t, now, o, s, ord, pay, lim, c); Hop(now, o, lim, c, way[3], way[4])
  {
  }

  /** Other seats come before a refund: while the first group found is free to hold, the
      order is moved to it, its seats booked and nothing refunded; the new hold id is now
      part of the order. */
  lemma UndisturbedMoves(t: Table, now: Time, o: OrderId, s: OrderState, ord: Order, pay: PaymentRow, lim: Limits,
                         c: Choice)
    requires FirstRunFree(t, now, ord, lim, c)
    ensures Path(now, o, lim, c, ToOtherSeats(t, now, o, s, ord, pay, lim, c))
    ensures var run := BestAvailable.Runs(c.candidates, |ord.seats|)[0];
            var end := ToOtherSeats(t, now, o, s, ord, pay, lim, c)[4];
            && end.state.row.seats == Inventory.Normalised(run) && end.state.row.hold == c.freshHold
                && end.state.row.reallocated
            && end.state.refundCalls == s.refundCalls && end.state.refundRows == s.refundRows
            && Listing(ord.event, end.state.row.seats) <= BookedTo(end.table, o)
  {
    SearchHops(t, now, o, s, ord, pay, lim, c);
    BookHop(t, now, o, s, ord, pay, lim, c);
    RecordHop(t, now, o, s, ord, pay, lim, c);
    RunAcquires(t, now, o, ord, BestAvailable.Runs(c.candidates, |ord.seats|)[0], lim, c);
  }
}
