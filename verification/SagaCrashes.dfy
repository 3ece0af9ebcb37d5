/** Crashes between a deed and its record: exactly those can make an order end badly, and
    exactly those right after a reallocation can get it charged twice. */
module SagaCrashes {
  import opened Sets
  import opened EventSeats
  import opened Payment
  import BestAvailable
  import opened Saga
  import opened SagaRuns
  import opened SagaPaths
  import opened SagaFaults

  // ---- The rerun of an order left CONFIRMING ----

  /** A sold seat confirms for nobody, so the rerun of an order whose seats are already
      booked turns to compensation. */
  lemma BookedSeatsMiss(t: Table, now: Time, event: int, seats: seq<int>, fences: seq<int>, hold: HoldId, o: OrderId)
    requires |seats| == |fences| && seats != [] && Listing(event, seats) <= BookedTo(t, o)
    ensures ConfirmCount(t, event, seats, fences, hold, now) != |seats|
  {
    ConfirmAllOrNothing(t, event, seats, fences, hold, now);
    assert Key(event, seats[0]) in Listing(event, seats);
  }

  function FencesNow(t: Table, row: Order): (fences: seq<int>)
    ensures |fences| == |row.seats|
  {
    CurrentFences(t, row.event, row.seats, row.hold)
  }

  /** Past the money, up to the confirm. */
  function WayBack(t: Table, s: OrderState, pay: PaymentRow): seq<Stop> {
    [Stop(t, s.(pc := ReadOrder)), Stop(t, s.(pc := InsertPayment(s.row))), Stop(t, s.(pc := MarkConfirming(s.row, pay))),
     Stop(t, s.(pc := ReadFences(s.row, pay))), Stop(t, s.(pc := ConfirmHeld(s.row, pay, FencesNow(t, s.row))))]
  }

  lemma RereadHops(t: Table, now: Time, o: OrderId, s: OrderState, lim: Limits, c: Choice)
    requires s.row.status == CONFIRMING && s.row.hold in s.payments && s.payments[s.row.hold].status == PayCaptured
    ensures var way := WayBack(t, s, s.payments[s.row.hold]);
            Hop(now, o, lim, c, way[0], way[1]) && Hop(now, o, lim, c, way[1], way[2])
  {
  }

  lemma ReconfirmHops(t: Table, now: Time, o: OrderId, s: OrderState, pay: PaymentRow, lim: Limits, c: Choice)
    requires s.row.status == CONFIRMING
    ensures var way := WayBack(t, s, pay); Hop(now, o, lim, c, way[2], way[3]) && Hop(now, o, lim, c, way[3], way[4])
  {
    assert s.row.(status := CONFIRMING) == s.row;
  }

  lemma WayBackWalk(t: Table, now: Time, o: OrderId, s: OrderState, lim: Limits, c: Choice)
    requires s.row.status == CONFIRMING && s.row.hold in s.payments && s.payments[s.row.hold].status == PayCaptured
    ensures Walk(now, o, lim, c, WayBack(t, s, s.payments[s.row.hold]))
  {
    RereadHops(t, now, o, s, lim, c);
    ReconfirmHops(t, now, o, s, s.payments[s.row.hold], lim, c);
  }

  /** The confirm succeeds and the order is ticketed. */
  function WayIn(t: Table, s: OrderState): seq<Stop> {
    [Stop(t, s.(pc := MarkConfirmed)), Stop(t, s.(row := s.row.(status := CONFIRMED), pc := MarkTicketed)),
     Stop(t, s.(row := s.row.(status := TICKETED), pc := Idle))]
  }

  /** Attempts to hold other seats from the k-th on, all turned away, and the refund they lead to. */
  function Tries(t: Table, s: OrderState, pay: PaymentRow, runs: seq<seq<int>>, k: nat): (stops: seq<Stop>)
    ensures stops != []
    decreases BestAvailable.Least(BestAvailable.MAX_ATTEMPTS, |runs|) - k
  {
    if k >= BestAvailable.Least(BestAvailable.MAX_ATTEMPTS, |runs|) then [Stop(t, s.(pc := RefundCard(s.row, pay)))]
    else [Stop(t, s.(pc := AcquireRun(s.row, pay, runs, k)))] + Tries(t, s, pay, runs, k + 1)
  }

  lemma TryHop(t: Table, now: Time, o: OrderId, s: OrderState, pay: PaymentRow, runs: seq<seq<int>>, k: nat,
               lim: Limits, c: Choice)
    requires c.blocked && k < BestAvailable.Least(BestAvailable.MAX_ATTEMPTS, |runs|)
    ensures Hop(now, o, lim, c, Stop(t, s.(pc := AcquireRun(s.row, pay, runs, k))), Tries(t, s, pay, runs, k + 1)[0])
  {
  }

  lemma {:induction false} TriesWalk(t: Table, now: Time, o: OrderId, s: OrderState, pay: PaymentRow,
                                     runs: seq<seq<int>>, k: nat, lim: Limits, c: Choice)
    requires c.blocked && c.freshHold != s.placed
    ensures Walk(now, o, lim, c, Tries(t, s, pay, runs, k))
    ensures var way := Tries(t, s, pay, runs, k); way[|way| - 1] == Stop(t, s.(pc := RefundCard(s.row, pay)))
    decreases BestAvailable.Least(BestAvailable.MAX_ATTEMPTS, |runs|) - k
  {
    if k < BestAvailable.Least(BestAvailable.MAX_ATTEMPTS, |runs|) {
      TriesWalk(t, now, o, s, pay, runs, k + 1, lim, c);
      TryHop(t, now, o, s, pay, runs, k, lim, c);
      WalkCons(now, o, lim, c, Stop(t, s.(pc := AcquireRun(s.row, pay, runs, k))), Tries(t, s, pay, runs, k + 1));
    } else {
      WalkOne(now, o, lim, c, Stop(t, s.(pc := RefundCard(s.row, pay))));
    }
  }

  function Refunded(s: OrderState, pay: PaymentRow): OrderState {
    s.(refundCalls := s.refundCalls + [RefundCall(pay.reference, pay.amount)], refundRows := s.refundRows + [pay.amount])
  }

  /** The refund, and the end. */
  function WayOut(t: Table, s: OrderState, pay: PaymentRow): seq<Stop> {
    [Stop(t, s.(refundCalls := s.refundCalls + [RefundCall(pay.reference, pay.amount)], pc := RecordRefund(pay))),
     Stop(t, Refunded(s, pay).(pc := MarkCompensated)), Stop(t, WithStatus(Refunded(s, pay), COMPENSATED, Idle))]
  }

  lemma WayOutWalk(t: Table, now: Time, o: OrderId, s: OrderState, pay: PaymentRow, lim: Limits, c: Choice)
    ensures Walk(now, o, lim, c, WayOut(t, s, pay))
  {
  }

  lemma RefundHop(t: Table, now: Time, o: OrderId, s: OrderState, pay: PaymentRow, lim: Limits, c: Choice)
    ensures Hop(now, o, lim, c, Stop(t, s.(pc := RefundCard(s.row, pay))), WayOut(t, s, pay)[0])
  {
  }

  /** Nobody lets the saga hold any other seat. */
  ghost predicate NoOtherSeats(t: Table, row: Order, c: Choice) {
    c.blocked && row.seats != [] && BestAvailable.IsCandidateList(t, row.event, MaxPrice(row), c.candidates)
  }

  function SearchTries(t: Table, s: OrderState, pay: PaymentRow, lim: Limits, c: Choice): seq<Stop> {
    var runs := BestAvailable.Runs(c.candidates, |s.row.seats|);
    Tries(t, s, pay, if |s.row.seats| > lim.maxSeats then [] else runs, 0)
  }

  lemma SearchLeadsOut(t: Table, now: Time, o: OrderId, s: OrderState, pay: PaymentRow, lim: Limits, c: Choice)
    requires NoOtherSeats(t, s.row, c)
    ensures Hop(now, o, lim, c, Stop(t, s.(pc := SearchSeats(s.row, pay))), SearchTries(t, s, pay, lim, c)[0])
  {
  }

  /** From the search to the end without other seats. */
  lemma SearchEndsOut(t: Table, now: Time, o: OrderId, s: OrderState, pay: PaymentRow, lim: Limits,
                      c: Choice) returns (way: seq<Stop>)
    requires NoOtherSeats(t, s.row, c) && c.freshHold != s.placed
    ensures Walk(now, o, lim, c, way) && way[0] == Stop(t, s.(pc := SearchSeats(s.row, pay)))
    ensures way[|way| - 1] == Stop(t, WithStatus(Refunded(s, pay), COMPENSATED, Idle))
  {
    var search, tries := [Stop(t, s.(pc := SearchSeats(s.row, pay)))], SearchTries(t, s, pay, lim, c);
    var runs := BestAvailable.Runs(c.candidates, |s.row.seats|);
    TriesWalk(t, now, o, s, pay, if |s.row.seats| > lim.maxSeats then [] else runs, 0, lim, c);
    SearchLeadsOut(t, now, o, s, pay, lim, c);
    WalkJoins(now, o, lim, c, search, tries);
    WayOutWalk(t, now, o, s, pay, lim, c);
    RefundHop(t, now, o, s, pay, lim, c);
    way := search + tries + WayOut(t, s, pay);
    WalkJoins(now, o, lim, c, search + tries, WayOut(t, s, pay));
  }

  /** A rerun of an order left CONFIRMING with its charge captured, to its end: ticketed if
      its seats are still on its hold, and refunded otherwise. */
  lemma RerunEnds(t: Table, now: Time, o: OrderId, s: OrderState, lim: Limits, c: Choice) returns (way: seq<Stop>)
    requires s.row.status == CONFIRMING && s.row.hold in s.payments && s.payments[s.row.hold].status == PayCaptured
    requires NoOtherSeats(t, s.row, c) && c.freshHold != s.placed
    ensures Walk(now, o, lim, c, way) && way[0] == Stop(t, s.(pc := ReadOrder))
    ensures var end, pay, n := way[|way| - 1], s.payments[s.row.hold], |s.row.seats|;
            if ConfirmCount(t, s.row.event, s.row.seats, FencesNow(t, s.row), s.row.hold, now) == n
            then end == Stop(ConfirmTx(t, s.row.event, s.row.seats, FencesNow(t, s.row), s.row.hold, o, now).table,
                             s.(row := s.row.(status := TICKETED), pc := Idle))
            else end == Stop(t, WithStatus(Refunded(s, pay), COMPENSATED, Idle))
  {
    var pay, fences := s.payments[s.row.hold], FencesNow(t, s.row);
    WayBackWalk(t, now, o, s, lim, c);
    if ConfirmCount(t, s.row.event, s.row.seats, fences, s.row.hold, now) == |s.row.seats| {
      var t' := ConfirmTx(t, s.row.event, s.row.seats, fences, s.row.hold, o, now).table;
      ConfirmHitHop(t, now, o, s, pay, fences, lim, c);
      WayInWalk(t', now, o, s, lim, c);
      way := WayBack(t, s, pay) + WayIn(t', s);
      WalkJoins(now, o, lim, c, WayBack(t, s, pay), WayIn(t', s));
    } else {
      ConfirmMissHop(t, now, o, s, s.row, pay, fences, lim, c);
      var out := SearchEndsOut(t, now, o, s, pay, lim, c);
      way := WayBack(t, s, pay) + out;
      WalkJoins(now, o, lim, c, WayBack(t, s, pay), out);
    }
  }

  lemma WayInWalk(t: Table, now: Time, o: OrderId, s: OrderState, lim: Limits, c: Choice)
    ensures Walk(now, o, lim, c, WayIn(t, s))
  {
  }

  lemma ConfirmHitHop(t: Table, now: Time, o: OrderId, s: OrderState, pay: PaymentRow, fences: seq<int>, lim: Limits,
                      c: Choice)
    requires |fences| == |s.row.seats| == ConfirmCount(t, s.row.event, s.row.seats, fences, s.row.hold, now)
    ensures Hop(now, o, lim, c, Stop(t, s.(pc := ConfirmHeld(s.row, pay, fences))),
                Stop(ConfirmTx(t, s.row.event, s.row.seats, fences, s.row.hold, o, now).table, s.(pc := MarkConfirmed)))
  {
  }

  lemma ConfirmMissHop(t: Table, now: Time, o: OrderId, s: OrderState, ord: Order, pay: PaymentRow, fences: seq<int>,
                       lim: Limits, c: Choice)
    requires |fences| == |ord.seats| != ConfirmCount(t, ord.event, ord.seats, fences, ord.hold, now)
    ensures Hop(now, o, lim, c, Stop(t, s.(pc := ConfirmHeld(ord, pay, fences))),
                Stop(t, s.(pc := SearchSeats(ord, pay))))
  {
  }

  // ---- The rerun of an order already moved to another hold ----

  function FirstCharge(t: Table, s: OrderState): seq<Stop> {
    [Stop(t, s.(pc := ReadOrder)), Stop(t, s.(pc := InsertPayment(s.row))),
     Stop(t, s.(payments := s.payments[s.row.hold := PaymentRow(PayPending, s.row.amount, false)],
                pc := ChargeCard(s.row, PaymentRow(PayPending, s.row.amount, false))))]
  }

  /** It charges the new key, never seen before, as if nothing had been paid. */
  lemma RerunCharges(t: Table, now: Time, o: OrderId, s: OrderState, lim: Limits, c: Choice)
    requires s.row.status == CONFIRMING && s.row.hold !in s.payments
    ensures Walk(now, o, lim, c, FirstCharge(t, s))
  {
  }

  /** A card that works is charged again, under the new key. */
  lemma RerunCapturesAgain(t: Table, now: Time, o: OrderId, s: OrderState, lim: Limits, c: Choice)
    returns (way: seq<Stop>)
    requires s.row.status == CONFIRMING && s.row.hold !in s.payments && s.row.hold !in s.captured
    requires !c.dice.fails && !c.dice.ambiguous && !c.dice.timesOut
    ensures Walk(now, o, lim, c, way) && way[0] == Stop(t, s.(pc := ReadOrder))
    ensures way[|way| - 1].state.captured == s.captured + {s.row.hold}
  {
    var pay := PaymentRow(PayPending, s.row.amount, false);
    var charged := s.(payments := s.payments[s.row.hold := pay], captured := s.captured + {s.row.hold});
    RerunCharges(t, now, o, s, lim, c);
    var last := Stop(t, charged.(pc := RecordCharge(s.row, pay, ChargeResult(Captured, true, true))));
    WalkOne(now, o, lim, c, last);
    way := FirstCharge(t, s) + [last];
    WalkJoins(now, o, lim, c, FirstCharge(t, s), [last]);
  }

  /** A declined charge fails the order. */
  function ToDecline(t: Table, s: OrderState, pay: PaymentRow): seq<Stop> {
    var failed := s.(payments := s.payments[s.row.hold := PaymentRow(PayFailed, pay.amount, false)]);
    [Stop(t, s.(pc := RecordCharge(s.row, pay, ChargeResult(Declined, false, false)))), Stop(t, failed.(pc := Fail)),
     Stop(t, failed.(row := s.row.(status := FAILED), pc := Idle))]
  }

  lemma DeclineWalk(t: Table, now: Time, o: OrderId, s: OrderState, pay: PaymentRow, lim: Limits, c: Choice)
    ensures Walk(now, o, lim, c, ToDecline(t, s, pay))
  {
  }

  lemma DeclineHop(t: Table, now: Time, o: OrderId, s: OrderState, pay: PaymentRow, lim: Limits, c: Choice)
    requires s.row.hold !in s.captured && c.dice.fails
    ensures Hop(now, o, lim, c, Stop(t, s.(pc := ChargeCard(s.row, pay))), ToDecline(t, s, pay)[0])
  {
  }

  lemma RerunDeclined(t: Table, now: Time, o: OrderId, s: OrderState, lim: Limits, c: Choice) returns (way: seq<Stop>)
    requires s.row.status == CONFIRMING && s.row.hold !in s.payments && s.row.hold !in s.captured && c.dice.fails
    ensures Walk(now, o, lim, c, way) && way[0] == Stop(t, s.(pc := ReadOrder))
    ensures var end := way[|way| - 1]; end.table == t && end.state.row.status == FAILED && end.state.captured == s.captured
  {
    var pay := PaymentRow(PayPending, s.row.amount, false);
    var charging := s.(payments := s.payments[s.row.hold := pay]);
    RerunCharges(t, now, o, s, lim, c);
    DeclineWalk(t, now, o, charging, pay, lim, c);
    DeclineHop(t, now, o, charging, pay, lim, c);
    way := FirstCharge(t, s) + ToDecline(t, charging, pay);
    WalkJoins(now, o, lim, c, FirstCharge(t, s), ToDecline(t, charging, pay));
  }

  // ---- The theorem ----

  ghost predicate EndsWellIn(w: World, o: OrderId) {
    o in w.orders && EndsWell(w.table, o, w.orders[o])
  }

  /** Some way the world can go on from here ends the order badly. */
  ghost predicate CanEndBadly(w: World, lim: Limits, o: OrderId) {
    exists moves :: Possible(w, lim, moves,
                             BetweenDeedAndRecord) && !EndsWellIn(Run(w, lim, moves, BetweenDeedAndRecord), o)
  }

  lemma WalkFromCrash(w: World, lim: Limits, o: OrderId, c: Choice, way: seq<Stop>)
    requires o in w.orders && Walk(w.now, o, lim, c, way) && way[0] == Stop(w.table, w.orders[o].(pc := ReadOrder))
    requires !EndsWell(way[|way| - 1].table, o, way[|way| - 1].state)
    ensures CanEndBadly(Next(w, lim, Crash(o)), lim, o)
  {
    var crashed := Next(w, lim, Crash(o));
    var started := Next(crashed, lim, Start(o));
    var end := At(started, o, way[|way| - 1]);
    assert started == At(started, o, way[0]);
    assert Leads(end, lim, BetweenDeedAndRecord, [], end);
    var moves := WalkThen(started, lim, BetweenDeedAndRecord, o, c, way, 0, [], end);
    LeadsCons(crashed, lim, BetweenDeedAndRecord, Start(o), moves, end);
    var all := [Start(o)] + moves;
    assert Possible(crashed, lim, all, BetweenDeedAndRecord) && Run(crashed, lim, all, BetweenDeedAndRecord) == end;
  }

  /** An order whose saga stopped between a deed and its record: paid, and either with
      seats booked or with a refund asked for. */
  lemma UnrecordedState(t: Table, booked: set<Key>, s: OrderState)
    requires OrderInv(t, booked, s) && Unrecorded(s.pc)
    ensures s.row.status == CONFIRMING && s.row.seats != [] && Paid(s) && s.captured == {s.placed}
        && s.payments.Keys == {s.placed}
    ensures booked != {} || s.refundCalls != []
    ensures s.pc == MarkConfirmed ==> booked == Listing(s.row.event, s.row.seats)
  {
    match s.pc
    case Reallocate(run, _, seats) =>
      NormalisedNonempty(run);
      assert Key(s.row.event, seats[0]) in booked;
    case MarkConfirmed => assert Key(s.row.event, s.row.seats[0]) in booked;
    case _ =>
  }

  /** However the rerun ends, seats and money disagree. */
  lemma RerunDisagrees(t: Table, now: Time, o: OrderId, s: OrderState, pay: PaymentRow)
    requires s.row.seats != [] && (BookedTo(t, o) != {} || s.refundCalls != [])
    ensures !EndsWell(t, o, WithStatus(Refunded(s, pay), COMPENSATED, Idle))
    ensures ConfirmCount(t, s.row.event, s.row.seats, FencesNow(t, s.row), s.row.hold, now) == |s.row.seats| ==>
              !EndsWell(ConfirmTx(t, s.row.event, s.row.seats, FencesNow(t, s.row), s.row.hold, o, now).table, o,
                        s.(row := s.row.(status := TICKETED), pc := Idle))
  {
    var fences := FencesNow(t, s.row);
    if s.refundCalls == [] && ConfirmCount(t, s.row.event, s.row.seats, fences, s.row.hold, now) == |s.row.seats| {
      var k :| k in BookedTo(t, o);
      ConfirmBooks(t, s.row.event, s.row.seats, fences, s.row.hold, o, now);
      if k in Listing(s.row.event, s.row.seats) { ConfirmedOnHold(t, now, s.row.event, s.row.seats, fences, s.row.hold, k); }
    }
  }

  lemma ConfirmedOnHold(t: Table, now: Time, event: int, seats: seq<int>, fences: seq<int>, hold: HoldId, k: Key)
    requires |seats| == |fences| == ConfirmCount(t, event, seats, fences, hold, now)
    requires k in Listing(event, seats)
    ensures k in t && t[k].status != BOOKED
  {
    ConfirmAllOrNothing(t, event, seats, fences, hold, now);
    var i :| 0 <= i < |seats| && seats[i] == k.seat;
    assert k == Key(event, seats[i]);
  }

  lemma UnrecordedCanEndBadly(w: World, lim: Limits, o: OrderId)
    requires Inv(w) && UniqueOrdinals(w.table) && o in w.orders && Unrecorded(w.orders[o].pc)
    ensures CanEndBadly(Next(w, lim, Crash(o)), lim, o)
  {
    var s, t := w.orders[o], w.table;
    UnrecordedState(t, BookedTo(t, o), s);
    var cs := CandidatesExist(t, s.row.event, MaxPrice(s.row));
    var c := Choice(Dice(true, false, false), true, s.placed + 1, cs);
    if s.row.hold in s.payments {
      var way := RerunEnds(t, w.now, o, s, lim, c);
      RerunDisagrees(t, w.now, o, s, s.payments[s.row.hold]);
      WalkFromCrash(w, lim, o, c, way);
    } else {
      var way := RerunDeclined(t, w.now, o, s, lim, c);
      WalkFromCrash(w, lim, o, c, way);
    }
  }

  lemma InvEndsWell(w: World, o: OrderId)
    requires Inv(w) && o in w.orders
    ensures EndsWellIn(w, o)
  {
    var s := w.orders[o];
    if s.row.status in {TICKETED, COMPENSATED, FAILED} { StatusFixesState(w.table, BookedTo(w.table, o), s); }
  }

  lemma {:induction false} OrdersStay(w: World, lim: Limits, moves: seq<Move>, crashes: Crashes, o: OrderId)
    requires o in w.orders && Possible(w, lim, moves, crashes)
    ensures o in Run(w, lim, moves, crashes).orders
    decreases moves
  {
    if moves != [] { OrdersStay(Next(w, lim, moves[0]), lim, moves[1..], crashes, o); }
  }

  lemma HarmlessCrashEndsWell(w: World, lim: Limits, o: OrderId)
    requires Inv(w) && o in w.orders && !Unrecorded(w.orders[o].pc)
    ensures !CanEndBadly(Next(w, lim, Crash(o)), lim, o)
  {
    var crashed := Next(w, lim, Crash(o));
    StepKeepsInv(w, lim, Crash(o));
    forall moves | Possible(crashed, lim, moves, BetweenDeedAndRecord)
      ensures EndsWellIn(Run(crashed, lim, moves, BetweenDeedAndRecord), o)
    {
      RunKeepsInv(crashed, lim, moves);
      OrdersStay(crashed, lim, moves, BetweenDeedAndRecord, o);
      InvEndsWell(Run(crashed, lim, moves, BetweenDeedAndRecord), o);
    }
  }

  /** At any moment of any run a saga may die. Some continuation then ends its order with
      money and seats in disagreement exactly when a deed was done and not yet recorded. */
  lemma CrashHarmlessIff(w: World, lim: Limits, moves: seq<Move>, o: OrderId)
    requires Fresh(w) && UniqueOrdinals(w.table) && Possible(w, lim, moves, BetweenDeedAndRecord)
    requires o in Run(w, lim, moves, BetweenDeedAndRecord).orders
    ensures var w' := Run(w, lim, moves, BetweenDeedAndRecord);
            CanEndBadly(Next(w', lim, Crash(o)), lim, o) <==> Unrecorded(w'.orders[o].pc)
  {
    var w' := Run(w, lim, moves, BetweenDeedAndRecord);
    FreshInv(w);
    RunKeepsInv(w, lim, moves);
    RunKeepsOrdinals(w, lim, moves, BetweenDeedAndRecord);
    if Unrecorded(w'.orders[o].pc) { UnrecordedCanEndBadly(w', lim, o); } else { HarmlessCrashEndsWell(w', lim, o); }
  }

  // ---- Captured twice ----

  /** What every statement keeps, however badly timed the crashes: seats are confirmed for
      an order marked CONFIRMING, a new hold is another hold, and a payment row that says
      captured is right. */
  ghost predicate Traced(s: OrderState) {
    && (SeatStage(s.pc) || s.pc.Reallocate? || s.pc.MarkConfirmed? ==> s.row.status == CONFIRMING)
    && (s.pc.ConfirmRun? || s.pc.Reallocate? ==> s.pc.hold != s.placed)
    && (s.row.reallocated ==> s.row.hold != s.placed)
    && (s.placed in s.payments && s.payments[s.placed].status == PayCaptured ==> s.placed in s.captured)
    && (s.pc.RecordCharge? && s.pc.charge.status == Captured ==> s.pc.ord.hold in s.captured)
    && (s.pc.ResolveCaptured? ==> s.placed in s.captured)
  }

  lemma PaymentKeepsTraced(t: Table, now: Time, s: OrderState, c: Choice)
    requires Traced(s) && PaymentStage(s.pc)
    ensures Traced(PaymentStatement(t, now, s, c))
  {
  }

  lemma SeatKeepsTraced(t: Table, t': Table, now: Time, s: OrderState, lim: Limits, c: Choice)
    requires Traced(s) && PcFits(s.pc) && SeatStage(s.pc) && (s.pc.AcquireRun? ==> c.freshHold != s.placed)
    ensures Traced(s.(pc := SeatStatement(t, t', now, s.pc, lim, c)))
  {
  }

  lemma ClosingKeepsTraced(s: OrderState)
    requires Traced(s) && !PaymentStage(s.pc) && !SeatStage(s.pc)
    ensures Traced(ClosingStatement(s))
  {
  }

  lemma StatementKeepsTraced(t: Table, t': Table, now: Time, s: OrderState, lim: Limits, c: Choice)
    requires Traced(s) && PcFits(s.pc) && (s.pc.AcquireRun? ==> c.freshHold != s.placed)
    ensures Traced(StateAfter(t, t', now, s, lim, c))
  {
    if PaymentStage(s.pc) { PaymentKeepsTraced(t, now, s, c); }
    else if SeatStage(s.pc) { SeatKeepsTraced(t, t', now, s, lim, c); }
    else { ClosingKeepsTraced(s); }
  }

  lemma MoveKeepsTraced(w: World, lim: Limits, m: Move, o: OrderId)
    requires Enabled(w, m) && (o in w.orders ==> Traced(w.orders[o]))
    ensures o in Next(w, lim, m).orders ==> Traced(Next(w, lim, m).orders[o])
  {
    if m.Statement? && m.o == o {
      StatementKeepsTraced(w.table, TableAfter(w.table, w.now, o, w.orders[o].pc, lim, m.choice), w.now, w.orders[o],
                           lim, m.choice);
    }
  }

  lemma {:induction false} RunKeepsTraced(w: World, lim: Limits, moves: seq<Move>, crashes: Crashes, o: OrderId)
    requires Possible(w, lim, moves, crashes) && (o in w.orders ==> Traced(w.orders[o]))
    ensures o in Run(w, lim, moves, crashes).orders ==> Traced(Run(w, lim, moves, crashes).orders[o])
    decreases moves
  {
    if moves != [] {
      MoveKeepsTraced(w, lim, moves[0], o);
      RunKeepsTraced(Next(w, lim, moves[0]), lim, moves[1..], crashes, o);
    }
  }

  ghost predicate CapturedTwice(w: World, o: OrderId) {
    o in w.orders && |w.orders[o].captured| > 1
  }

  /** Some way the world can go on from here captures the order under a second key. */
  ghost predicate CanCaptureTwice(w: World, lim: Limits, o: OrderId) {
    exists moves :: Possible(w, lim, moves,
                             BeforeReallocation) && CapturedTwice(Run(w, lim, moves, BeforeReallocation), o)
  }

  /** The order has been moved to other seats and its status not yet written. */
  predicate JustMoved(s: OrderState) {
    s.row.reallocated && s.pc == MarkConfirmed
  }

  lemma JustMovedCaptures(w: World, lim: Limits, o: OrderId)
    requires o in w.orders && OneKey(w.orders[o]) && Traced(w.orders[o]) && JustMoved(w.orders[o])
    ensures CanCaptureTwice(Next(w, lim, Crash(o)), lim, o)
  {
    var s := w.orders[o];
    var crashed := Next(w, lim, Crash(o));
    var started := Next(crashed, lim, Start(o));
    var c := Choice(Dice(false, false, false), false, s.placed + 1, []);
    var way := RerunCapturesAgain(w.table, w.now, o, s, lim, c);
    var end := At(started, o, way[|way| - 1]);
    assert started == At(started, o, way[0]);
    assert Leads(end, lim, BeforeReallocation, [], end);
    var moves := WalkThen(started, lim, BeforeReallocation, o, c, way, 0, [], end);
    LeadsCons(crashed, lim, BeforeReallocation, Start(o), moves, end);
    TwoKeys(s.captured, s.placed, s.row.hold);
    assert Possible(crashed, lim, [Start(o)] + moves, BeforeReallocation)
        && CapturedTwice(Run(crashed, lim, [Start(o)] + moves, BeforeReallocation), o);
  }

  lemma TwoKeys(captured: set<HoldId>, a: HoldId, b: HoldId)
    requires captured <= {a} && a in captured && a != b
    ensures |captured + {b}| == 2
  {
    assert captured + {b} == {a, b};
  }

  lemma ElsewhereCapturesOnce(w: World, lim: Limits, o: OrderId)
    requires o in w.orders && OneKeyEach(w) && !JustMoved(w.orders[o])
    ensures !CanCaptureTwice(Next(w, lim, Crash(o)), lim, o)
  {
    var crashed := Next(w, lim, Crash(o));
    StepKeepsOneKey(w, lim, Crash(o));
    forall moves | Possible(crashed, lim, moves, BeforeReallocation)
      ensures !CapturedTwice(Run(crashed, lim, moves, BeforeReallocation), o)
    {
      RunKeepsOneKey(crashed, lim, moves);
      var w' := Run(crashed, lim, moves, BeforeReallocation);
      if o in w'.orders { SubsetSmaller(w'.orders[o].captured, {w'.orders[o].placed}); }
    }
  }

  /** At any moment of any run whose crashes so far fell anywhere but in the reallocation
      window a saga may die: its order can then be captured under a second key exactly
      when this crash falls in that window. */
  lemma SecondCaptureIff(w: World, lim: Limits, moves: seq<Move>, o: OrderId)
    requires Fresh(w) && Possible(w, lim, moves, BeforeReallocation)
    requires o in Run(w, lim, moves, BeforeReallocation).orders
    ensures var w' := Run(w, lim, moves, BeforeReallocation);
            CanCaptureTwice(Next(w', lim, Crash(o)), lim, o) <==> JustMoved(w'.orders[o])
  {
    var w' := Run(w, lim, moves, BeforeReallocation);
    RunKeepsOneKey(w, lim, moves);
    RunKeepsTraced(w, lim, moves, BeforeReallocation, o);
    if JustMoved(w'.orders[o]) { JustMovedCaptures(w', lim, o); } else { ElsewhereCapturesOnce(w', lim, o); }
  }
}
