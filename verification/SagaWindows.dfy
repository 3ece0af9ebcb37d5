/** Two whole runs from a published event in which a saga dies at the wrong moment: one
    refunds an order that keeps its seat, one charges an order twice. */
module SagaWindows {
  import opened Wrappers
  import opened EventSeats
  import opened Payment
  import BestAvailable
  import Fencing
  import Inventory
  import opened Saga
  import opened SagaRuns
  import opened SagaPaths
  import opened SagaUndisturbed
  import opened SagaCrashes

  const BOUGHT := Key(1, 10)
  const SPARE := Key(1, 11)
  const BUYER := "buyer"

  function FreeRow(ordinal: nat, rowId: int): Row {
    Row(ordinal, rowId, true, 50, AVAILABLE, None, None, None, None, None, 0)
  }

  /** Two seats, in different rows of the hall. */
  function Published(): World {
    World(map[BOUGHT := FreeRow(0, 1), SPARE := FreeRow(1, 2)], 0, map[])
  }

  function Held(): Table {
    map[BOUGHT := HeldRow(FreeRow(0, 1), 7, BUYER, 600), SPARE := FreeRow(1, 2)]
  }

  function TheOrder(): OrderState {
    NewOrder(BUYER, 7, 1, [10], 50)
  }

  function Began(): World {
    World(Held(), 0, map[3 := TheOrder().(pc := ReadOrder)])
  }

  const TAKE := Others(Fencing.Acquire(1, [10], 7, BUYER, 600))

  lemma SeatTaken(lim: Limits)
    ensures Enabled(Published(), TAKE) && Next(Published(), lim, TAKE) == World(Held(), 0, map[])
  {
    AcquireAllOrNothing(Published().table, 1, [10], 0);
    assert Acquired(Published().table, 1, [10], 7, BUYER, 0, 600) == Held();
  }

  lemma OrderPlaced(lim: Limits)
    ensures var w, m := World(Held(), 0, map[]), Place(3, BUYER, 7, [BOUGHT]);
            Enabled(w, m) && Next(w, lim, m) == World(Held(), 0, map[3 := TheOrder()])
  {
    assert [BOUGHT][..0] == [];
    assert LockedTotal(Held(), [BOUGHT]) == 50;
    assert SeatIds([BOUGHT]) == [10];
    forall k ensures k in [BOUGHT] <==> k in Held() && Held()[k].hold == Some(7) {}
    assert IsHoldListing(Held(), 7, [BOUGHT]);
  }

  /** The seat is held, the order placed and its saga started, and then the rest. */
  lemma BeginThen(lim: Limits, rest: seq<Move>, w': World) returns (moves: seq<Move>)
    requires Leads(Began(), lim, Anywhere, rest, w')
    ensures Leads(Published(), lim, Anywhere, moves, w')
  {
    SeatTaken(lim);
    OrderPlaced(lim);
    var w1, w2 := World(Held(), 0, map[]), World(Held(), 0, map[3 := TheOrder()]);
    assert Next(w2, lim, Start(3)) == Began();
    LeadsCons(w2, lim, Anywhere, Start(3), rest, w');
    LeadsCons(w1, lim, Anywhere, Place(3, BUYER, 7, [BOUGHT]), [Start(3)] + rest, w');
    LeadsCons(Published(), lim, Anywhere, TAKE, [Place(3, BUYER, 7, [BOUGHT])] + ([Start(3)] + rest), w');
    moves := [TAKE] + ([Place(3, BUYER, 7, [BOUGHT])] + ([Start(3)] + rest));
  }

  function CardWorking(): Choice {
    Choice(Dice(false, false, false), false, 9, [])
  }

  function Way(): seq<Stop> {
    ToEnd(Held(), 0, 3, TheOrder().(pc := ReadOrder))
  }

  lemma OrderHolds()
    ensures Holding(Held(), 0, TheOrder().(pc := ReadOrder)) && CardWorks(CardWorking())
  {
    forall seat | seat in [10] ensures Key(1, seat) in Held() && Extendable(Held()[Key(1, seat)], 7, 0) {
      assert seat == 10;
    }
  }

  /** Nobody interferes up to the n-th statement. */
  lemma FirstWay(lim: Limits, n: nat)
    requires 0 < n <= 12
    ensures |Way()| == 12 && Walk(0, 3, lim, CardWorking(), Way()[..n])
    ensures Way()[0] == Stop(Held(), TheOrder().(pc := ReadOrder))
  {
    OrderHolds();
    UndisturbedTickets(Held(), 0, 3, TheOrder().(pc := ReadOrder), lim, CardWorking());
    WalkPrefix(0, 3, lim, CardWorking(), Way(), n);
  }

  /** A run that starts with those statements. */
  lemma WayThen(lim: Limits, n: nat, rest: seq<Move>, w': World) returns (moves: seq<Move>)
    requires 0 < n <= 12 && |Way()| == 12 && Leads(At(Began(), 3, Way()[n - 1]), lim, Anywhere, rest, w')
    ensures Leads(Published(), lim, Anywhere, moves, w')
  {
    FirstWay(lim, n);
    var walk := WalkThen(Began(), lim, Anywhere, 3, CardWorking(), Way()[..n], 0, rest, w');
    moves := BeginThen(lim, walk, w');
  }

  /** And then the saga dies, and the world goes on. */
  lemma DieThen(w: World, lim: Limits, o: OrderId, rest: seq<Move>, w': World) returns (moves: seq<Move>)
    requires o in w.orders && Leads(Next(w, lim, Crash(o)), lim, Anywhere, rest, w')
    ensures Leads(w, lim, Anywhere, moves, w')
  {
    LeadsCons(w, lim, Anywhere, Crash(o), rest, w');
    moves := [Crash(o)] + rest;
  }

  /** A crash and a restart, and a walk to the end. */
  lemma RerunThen(w: World, lim: Limits, o: OrderId, c: Choice, way: seq<Stop>) returns (moves: seq<Move>, w': World)
    requires o in w.orders && Walk(w.now, o, lim, c, way) && way[0] == Stop(w.table, w.orders[o].(pc := ReadOrder))
    ensures Leads(w, lim, Anywhere, moves, w') && w' == At(w, o, way[|way| - 1])
  {
    var crashed := Next(w, lim, Crash(o));
    var started := Next(crashed, lim, Start(o));
    w' := At(started, o, way[|way| - 1]);
    assert started == At(started, o, way[0]);
    assert Leads(w', lim, Anywhere, [], w');
    var walk := WalkThen(started, lim, Anywhere, o, c, way, 0, [], w');
    LeadsCons(crashed, lim, Anywhere, Start(o), walk, w');
    moves := DieThen(w, lim, o, [Start(o)] + walk, w');
  }

  // ---- Refunded, and still seated ----

  /** The order paid for and its seat booked to it, and the status not written. */
  ghost predicate JustBooked(t: Table, s: OrderState) {
    && s == TheOrder().(row := TheOrder().row.(status := CONFIRMING), captured := {7}, pc := MarkConfirmed,
                        payments := map[7 := PaymentRow(PayCaptured, 50, true)])
    && UniqueOrdinals(t) && Listing(1, [10]) <= BookedTo(t, 3)
  }

  lemma SeatsKeepOrdinals(t: Table, t': Table)
    requires UniqueOrdinals(t) && SameSeats(t, t')
    ensures UniqueOrdinals(t')
  {
  }

  lemma HeldOrdinals()
    ensures UniqueOrdinals(Held())
  {
  }

  lemma TwoOrdinals()
    ensures |Way()| == 12 && UniqueOrdinals(Way()[9].table)
  {
    WaySeats(Held(), 0, 3, TheOrder().(pc := ReadOrder));
    HeldOrdinals();
    SeatsKeepOrdinals(Held(), Way()[9].table);
  }

  lemma AtBooking()
    ensures |Way()| == 12 && JustBooked(Way()[9].table, Way()[9].state)
  {
    OrderHolds();
    TwoOrdinals();
    UndisturbedTickets(Held(), 0, 3, TheOrder().(pc := ReadOrder), Limits(1, 1), CardWorking());
  }

  ghost predicate RefundedAndSeated(w: World) {
    3 in w.orders && w.orders[3].row.status == COMPENSATED && w.orders[3].refundRows == [50]
        && BOUGHT in BookedTo(w.table, 3)
  }

  lemma RerunRefunds(w: World, lim: Limits) returns (moves: seq<Move>, w': World)
    requires 3 in w.orders && JustBooked(w.table, w.orders[3])
    ensures Leads(w, lim, Anywhere, moves, w') && RefundedAndSeated(w')
  {
    var s := w.orders[3];
    var cs := CandidatesExist(w.table, 1, 50);
    var c := Choice(Dice(false, false, false), true, 9, cs);
    var way := RerunEnds(w.table, w.now, 3, s, lim, c);
    BookedSeatsMiss(w.table, w.now, 1, [10], FencesNow(w.table, s.row), 7, 3);
    moves, w' := RerunThen(w, lim, 3, c, way);
    assert BOUGHT in Listing(1, [10]) by { assert 10 in [10]; }
  }

  lemma RefundRun(lim: Limits) returns (moves: seq<Move>, w': World)
    ensures Leads(Published(), lim, Anywhere, moves, w') && RefundedAndSeated(w')
  {
    AtBooking();
    var stop := Way()[9];
    var rerun, end := RerunRefunds(At(Began(), 3, stop), lim);
    moves := WayThen(lim, 10, rerun, end);
    w' := end;
  }

  lemma PublishedIsFresh()
    ensures Fresh(Published()) && UniqueOrdinals(Published().table)
  {
  }

  /** From a published event, a seat is bought; the saga dies between the booking and the
      status write, and the rerun refunds an order whose seat stays booked to it. */
  lemma RefundedYetSeated(lim: Limits) returns (moves: seq<Move>)
    ensures Fresh(Published()) && Possible(Published(), lim, moves, Anywhere)
    ensures RefundedAndSeated(Run(Published(), lim, moves, Anywhere))
  {
    PublishedIsFresh();
    var end;
    moves, end := RefundRun(lim);
  }

  // ---- Charged twice ----

  function Prolonged(): Table {
    HoldExtended(Held(), 0, TheOrder().row)
  }

  /** The order about to be confirmed, its hold running out. */
  ghost predicate ToConfirm(t: Table, s: OrderState) {
    t == Prolonged() && Stop(t, s) == AtConfirm(Held(), 0, TheOrder().(pc := ReadOrder))
  }

  lemma AtConfirming()
    ensures |Way()| == 12 && ToConfirm(Way()[8].table, Way()[8].state)
  {
    OrderHolds();
    UndisturbedTickets(Held(), 0, 3, TheOrder().(pc := ReadOrder), Limits(1, 1), CardWorking());
  }

  lemma ExtendedRows()
    ensures Prolonged() == map[BOUGHT := ExtendedRow(Held()[BOUGHT], 180), SPARE := FreeRow(1, 2)]
  {
    Inventory.NormalisedSound([10]);
    var ids := Inventory.Normalised([10]);
    assert 10 in [10] && 11 !in [10];
    assert 10 in ids && 11 !in ids;
  }

  function OtherSeat(): Choice {
    Choice(Dice(false, false, false), false, 9, [BestAvailable.Candidate(11, 1, 2)])
  }

  /** Only the other seat is offered, and it is one run. */
  lemma OtherSeatFound(lim: Limits, now: Time)
    requires lim.maxSeats >= 1 && lim.holdTtl > 0
    ensures BestAvailable.IsCandidateList(Prolonged(), 1, MaxPrice(TheOrder().row), OtherSeat().candidates)
    ensures FirstRunFree(Prolonged(), now, TheOrder().row, lim, OtherSeat())
  {
    ExtendedRows();
    var cs, t := OtherSeat().candidates, Prolonged();
    forall seat | BestAvailable.Offered(t, 1, 50, seat) ensures exists i :: 0 <= i < |cs| && cs[i].seat == seat {
      assert Key(1, seat) == SPARE;
      assert cs[0].seat == seat;
    }
    assert BestAvailable.RunAt(cs, 0, 1) && !BestAvailable.RunAt(cs, 1, 1);
    assert BestAvailable.SeatsAt(cs, 0, 1) == [11] && BestAvailable.RunsBefore(cs, 1, 0) == [];
    assert BestAvailable.RunsBefore(cs, 1, 1) == [[11]];
    assert BestAvailable.Runs(cs, 1) == [[11]];
    assert forall seat | seat in [11] :: seat == 11;
  }

  lemma HoldRanOut(now: Time)
    requires now > 600
    ensures var fences := CurrentFences(Prolonged(), 1, [10], 7);
            |fences| == 1 && ConfirmCount(Prolonged(), 1, [10], fences, 7, now) != 1
  {
    ExtendedRows();
    var fences := CurrentFences(Prolonged(), 1, [10], 7);
    ConfirmAllOrNothing(Prolonged(), 1, [10], fences, 7, now);
    assert Key(1, [10][0]) == BOUGHT;
  }

  lemma MovedWalk(t: Table, now: Time, s: OrderState, ord: Order, pay: PaymentRow, lim: Limits, c: Choice)
    returns (way: seq<Stop>)
    requires FirstRunFree(t, now, ord, lim, c)
        && BestAvailable.IsCandidateList(t, ord.event, MaxPrice(ord), c.candidates)
    requires c.freshHold != s.placed
    ensures Walk(now, 3, lim, c, way) && way[0] == Stop(t, s.(pc := SearchSeats(ord, pay)))
    ensures var end := way[|way| - 1].state;
            && end.pc == MarkConfirmed && end.row.reallocated && end.row.hold == c.freshHold
                && end.row.status == s.row.status
            && end.payments == s.payments && end.captured == s.captured
  {
    UndisturbedMoves(t, now, 3, s, ord, pay, lim, c);
    way := ToOtherSeats(t, now, 3, s, ord, pay, lim, c);
  }

  lemma MissHop(lim: Limits, now: Time, s: OrderState)
    requires now > 600 && ToConfirm(Prolonged(), s)
    ensures Hop(now, 3, lim, OtherSeat(), Stop(Prolonged(), s),
                Stop(Prolonged(), s.(pc := SearchSeats(TheOrder().row, PaymentRow(PayCaptured, 50, false)))))
  {
    HoldRanOut(now);
    ConfirmMissHop(Prolonged(), now, 3, s, TheOrder().row, PaymentRow(PayCaptured, 50, false),
                   CurrentFences(Prolonged(), 1, [10], 7),
                   lim, OtherSeat());
  }

  /** The confirm misses and the order moves to the other seat. */
  lemma MoveWalk(lim: Limits, now: Time, s: OrderState) returns (way: seq<Stop>)
    requires lim.maxSeats >= 1 && lim.holdTtl > 0 && now > 600 && ToConfirm(Prolonged(), s)
    ensures Walk(now, 3, lim, OtherSeat(), way) && way[0] == Stop(Prolonged(), s)
    ensures var end := way[|way| - 1].state;
            && end.pc == MarkConfirmed && end.row.reallocated && end.row.hold == 9 && end.row.status == CONFIRMING
            && end.payments == s.payments && end.captured == s.captured
  {
    OtherSeatFound(lim, now);
    MissHop(lim, now, s);
    var moved := MovedWalk(Prolonged(), now, s, TheOrder().row, PaymentRow(PayCaptured, 50, false), lim, OtherSeat());
    WalkCons(now, 3, lim, OtherSeat(), Stop(Prolonged(), s), moved);
    way := [Stop(Prolonged(), s)] + moved;
  }

  /** The clock passes the end of the hold. */
  lemma WaitThen(w: World, lim: Limits, dt: nat, rest: seq<Move>, w': World) returns (moves: seq<Move>)
    requires Leads(w.(now := w.now + dt), lim, Anywhere, rest, w')
    ensures Leads(w, lim, Anywhere, moves, w')
  {
    LeadsCons(w, lim, Anywhere, Others(Fencing.Tick(dt)), rest, w');
    moves := [Others(Fencing.Tick(dt))] + rest;
  }

  /** The order is moved, its saga dies, and the rerun charges the card again. */
  lemma MovedThenCharged(w: World, lim: Limits) returns (moves: seq<Move>, w': World)
    requires lim.maxSeats >= 1 && lim.holdTtl > 0 && w.now > 600
    requires 3 in w.orders && w.table == Prolonged() && ToConfirm(Prolonged(), w.orders[3])
    ensures Leads(w, lim, Anywhere, moves, w') && 3 in w'.orders && w'.orders[3].captured == {7, 9}
  {
    var way := MoveWalk(lim, w.now, w.orders[3]);
    var moved := At(w, 3, way[|way| - 1]);
    var c := Choice(Dice(false, false, false), false, 0, []);
    var again := RerunCapturesAgain(moved.table, w.now, 3, moved.orders[3], lim, c);
    var rerun;
    rerun, w' := RerunThen(moved, lim, 3, c, again);
    assert At(w, 3, way[0]) == w;
    moves := WalkThen(w, lim, Anywhere, 3, OtherSeat(), way, 0, rerun, w');
  }

  ghost predicate TwoCaptures(w: World) {
    3 in w.orders && w.orders[3].captured == {7, 9}
  }

  lemma ChargeRun(lim: Limits) returns (moves: seq<Move>, w': World)
    requires lim.maxSeats >= 1 && lim.holdTtl > 0
    ensures Leads(Published(), lim, Anywhere, moves, w') && TwoCaptures(w')
  {
    AtConfirming();
    var w := At(Began(), 3, Way()[8]);
    var rest, end := MovedThenCharged(w.(now := 601), lim);
    var waited := WaitThen(w, lim, 601, rest, end);
    moves := WayThen(lim, 9, waited, end);
    w' := end;
  }

  /** From a published event: the hold of a paid order runs out, the order is moved to
      another seat, the saga dies before the status write, and its rerun captures the
      order under a second key. */
  lemma ChargedTwice(lim: Limits) returns (moves: seq<Move>)
    requires lim.maxSeats >= 1 && lim.holdTtl > 0
    ensures Fresh(Published()) && Possible(Published(), lim, moves, Anywhere)
    ensures TwoCaptures(Run(Published(), lim, moves, Anywhere))
  {
    PublishedIsFresh();
    var end;
    moves, end := ChargeRun(lim);
  }
}
