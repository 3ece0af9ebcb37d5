/** The checkout saga and its reconciler, one atomic statement at a time: other
    people's seat transactions, other orders' sagas, the clock and crashes may come
    between any two statements of one order. */
module Saga {
  import opened Wrappers
  import opened EventSeats
  import opened Payment
  import Fencing
  import opened BestAvailable
  import Inventory

  const EXTEND_SECONDS := 180

  datatype OrderStatus = PENDING | AUTHORIZING | CONFIRMING | CONFIRMED | TICKETED | COMPENSATED | FAILED

  datatype Order = Order(user: string, event: int, hold: HoldId, seats: seq<int>, amount: nat,
                         status: OrderStatus, reallocated: bool)

  datatype PaymentStatus = PayPending | PayCaptured | PayFailed | PayUnknown

  /** reference: whether the row carries the provider's reference to the charge. */
  datatype PaymentRow = PaymentRow(status: PaymentStatus, amount: nat, reference: bool)

  datatype RefundCall = RefundCall(reference: bool, amount: nat)

  /** Where a saga stands: the statement it is about to execute and its local
      variables. ord is the order as read at the start; pay the payment row as read. */
  datatype Pc =
    | Idle
    | ReadOrder
    | MarkAuthorizing(ord: Order)
    | ExtendHold(ord: Order)
    | Fail
    | InsertPayment(ord: Order)
    | ChargeCard(ord: Order, pay: PaymentRow)
    | RecordCharge(ord: Order, pay: PaymentRow, charge: ChargeResult)
    | MarkConfirming(ord: Order, pay: PaymentRow)
    | ReadFences(ord: Order, pay: PaymentRow)
    | ConfirmHeld(ord: Order, pay: PaymentRow, fences: seq<int>)
    | SearchSeats(ord: Order, pay: PaymentRow)
    | AcquireRun(ord: Order, pay: PaymentRow, runs: seq<seq<int>>, attempt: nat)
    | ConfirmRun(ord: Order, pay: PaymentRow, run: seq<int>, hold: HoldId, seats: seq<int>, fences: seq<int>)
    | Reallocate(run: seq<int>, hold: HoldId, seats: seq<int>)
    | MarkConfirmed
    | MarkTicketed
    | ReleaseRun(ord: Order, pay: PaymentRow, hold: HoldId, seats: seq<int>)
    | RefundCard(ord: Order, pay: PaymentRow)
    | RecordRefund(pay: PaymentRow)
    | MarkCompensated
    | AskProvider(pay: PaymentRow)
    | ResolveCaptured(pay: PaymentRow)
    | ResolveFailed

  /** Everything kept about one order. The charge key is (user, order, hold), so the
      payments rows and the provider's captured keys of an order are told apart by
      hold alone. placed is the hold the order was created with, asked how many seats. */
  datatype OrderState = OrderState(
    row: Order, placed: HoldId, asked: nat, payments: map<HoldId, PaymentRow>, captured: set<HoldId>,
    refundRows: seq<nat>, refundCalls: seq<RefundCall>, pc: Pc)

  datatype Limits = Limits(maxSeats: nat, holdTtl: int)

  /** What a statement cannot decide itself: the provider's dice, the contention
      filter's answer, the fresh hold id, and the database's order of candidates. */
  datatype Choice = Choice(dice: Dice, blocked: bool, freshHold: HoldId, candidates: seq<Candidate>)

  // ---- One statement of one order's saga ----

  function AfterPaymentRead(ord: Order, pay: PaymentRow): Pc {
    match pay.status
    case PayPending => ChargeCard(ord, pay)
    case PayFailed => Fail
    case PayUnknown => Idle
    case PayCaptured => MarkConfirming(ord, pay)
  }

  function PayStatusOf(c: ChargeStatus): PaymentStatus {
    match c case Captured => PayCaptured case Declined => PayFailed case Unknown => PayUnknown
  }

  /** The fences of the seats still on the hold; 0 for a seat that is not. */
  function CurrentFences(t: Table, event: int, seats: seq<int>, hold: HoldId): (fences: seq<int>)
    ensures |fences| == |seats|
  {
    seq(|seats|, i requires 0 <= i < |seats| =>
      var k := Key(event, seats[i]);
      if k in t && t[k].hold == Some(hold) then t[k].fence else 0)
  }

  function FencesOf(t: Table, event: int, seats: seq<int>): (fences: seq<int>)
    ensures |fences| == |seats|
  {
    seq(|seats|, i requires 0 <= i < |seats| => var k := Key(event, seats[i]); if k in t then t[k].fence else 0)
  }

  predicate PcFits(pc: Pc) {
    && (pc.ConfirmHeld? ==> |pc.fences| == |pc.ord.seats|)
    && (pc.ConfirmRun? ==> |pc.fences| == |pc.seats|)
    && (pc.SearchSeats? ==> pc.ord.seats != [])
    && (pc.AcquireRun? ==> pc.attempt < Least(MAX_ATTEMPTS, |pc.runs|))
  }

  /** The price bound and group size a reallocation searches with. */
  function MaxPrice(ord: Order): nat
    requires ord.seats != []
  {
    ord.amount / |ord.seats|
  }

  function WithStatus(s: OrderState, status: OrderStatus, pc: Pc): OrderState {
    s.(row := s.row.(status := status), pc := pc)
  }

  /** Which statements of the saga are about money, which about seats, and which only
      write down the outcome. */
  predicate PaymentStage(pc: Pc) {
    pc.Idle? || pc.ReadOrder? || pc.MarkAuthorizing? || pc.ExtendHold? || pc.Fail? || pc.InsertPayment? || pc.ChargeCard?
    || pc.RecordCharge? || pc.MarkConfirming? || pc.AskProvider? || pc.ResolveCaptured? || pc.ResolveFailed?
  }

  predicate SeatStage(pc: Pc) {
    pc.ReadFences? || pc.ConfirmHeld? || pc.SearchSeats? || pc.AcquireRun? || pc.ConfirmRun? || pc.ReleaseRun?
  }

  predicate Acquires(t: Table, now: Time, ord: Order, run: seq<int>, c: Choice) {
    var ids := Inventory.Normalised(run);
    !c.blocked && AcquireCount(t, ord.event, ids, now) == |ids|
  }

  /** The table after one statement of an order's saga. */
  function TableAfter(t: Table, now: Time, o: OrderId, pc: Pc, lim: Limits, c: Choice): Table
    requires PcFits(pc)
  {
    match pc
    case ExtendHold(ord) => Extended(t, ord.event, Inventory.Normalised(ord.seats), ord.hold, now, EXTEND_SECONDS)
    case ConfirmHeld(ord, _, fences) => ConfirmTx(t, ord.event, ord.seats, fences, ord.hold, o, now).table
    case AcquireRun(ord, _, runs, attempt) =>
      if Acquires(t, now, ord, runs[attempt], c)
      then AcquireTx(t, ord.event, Inventory.Normalised(runs[attempt]), c.freshHold, ord.user, now, lim.holdTtl).table
      else t
    case ConfirmRun(ord, _, _, hold, seats, fences) => ConfirmTx(t, ord.event, seats, fences, hold, o, now).table
    case ReleaseRun(ord, _, hold, seats) => ReleaseTx(t, ord.event, seats, hold).table
    case _ => t
  }

  predicate Extends(t: Table, now: Time, ord: Order) {
    var ids := Inventory.Normalised(ord.seats);
    ExtendCount(t, ord.event, ids, ord.hold, now) >= |ids|
  }

  /** Every seat of the order is on its hold and unexpired. */
  ghost predicate HoldAlive(t: Table, now: Time, row: Order) {
    forall seat | seat in row.seats :: Key(row.event, seat) in t && Extendable(t[Key(row.event, seat)], row.hold, now)
  }

  lemma ExtendsIff(t: Table, now: Time, ord: Order)
    ensures Extends(t, now, ord) <==> HoldAlive(t, now, ord)
  {
    Inventory.NormalisedSound(ord.seats);
    ExtendAll(t, ord.event, Inventory.Normalised(ord.seats), ord.hold, now);
  }

  /** The order after a statement about money. */
  function PaymentStatement(t: Table, now: Time, s: OrderState, c: Choice): OrderState {
    match s.pc
    case ReadOrder =>
      s.(pc := if s.row.status == PENDING then MarkAuthorizing(s.row)
               else if s.row.status == AUTHORIZING || s.row.status == CONFIRMING then InsertPayment(s.row)
               else Idle)
    case MarkAuthorizing(ord) => WithStatus(s, AUTHORIZING, ExtendHold(ord))
    case ExtendHold(ord) => s.(pc := if Extends(t, now, ord) then InsertPayment(ord) else Fail)
    case Fail => WithStatus(s, FAILED, Idle)
    case InsertPayment(ord) =>
      if ord.hold in s.payments then s.(pc := AfterPaymentRead(ord, s.payments[ord.hold]))
      else
        var pay := PaymentRow(PayPending, ord.amount, false);
        s.(payments := s.payments[ord.hold := pay], pc := AfterPaymentRead(ord, pay))
    case ChargeCard(ord, pay) =>
      var charge := Charged(ord.hold in s.captured, c.dice);
      s.(captured := if charge.captures then s.captured + {ord.hold} else s.captured, pc := RecordCharge(ord, pay, charge))
    case RecordCharge(ord, pay, charge) =>
      // the row learns the reference; the saga's own copy of the row only the status
      var status := PayStatusOf(charge.status);
      s.(payments := s.payments[ord.hold := PaymentRow(status, pay.amount, charge.reference)],
         pc := AfterPaymentRead(ord, pay.(status := status)))
    case MarkConfirming(ord, pay) => WithStatus(s, CONFIRMING, ReadFences(ord, pay))
    case AskProvider(pay) => s.(pc := if s.placed in s.captured then ResolveCaptured(pay) else ResolveFailed)
    case ResolveCaptured(pay) =>
      s.(payments := s.payments[s.placed := PaymentRow(PayCaptured, pay.amount, pay.reference)], pc := ReadOrder)
    case ResolveFailed =>
      s.(payments := if s.placed in s.payments
                     then s.payments[s.placed := PaymentRow(PayFailed, s.payments[s.placed].amount, false)]
                     else s.payments, pc := Fail)
    case _ => s
  }

  /** Where a statement about seats leads; t is the table before it and t' after. */
  function SeatStatement(t: Table, t': Table, now: Time, pc: Pc, lim: Limits, c: Choice): Pc
    requires PcFits(pc)
  {
    match pc
    case ReadFences(ord, pay) => ConfirmHeld(ord, pay, CurrentFences(t, ord.event, ord.seats, ord.hold))
    case ConfirmHeld(ord, pay, fences) =>
      if ConfirmCount(t, ord.event, ord.seats, fences, ord.hold, now) == |ord.seats| then MarkConfirmed else SearchSeats(ord, pay)
    case SearchSeats(ord, pay) =>
      var runs := Runs(c.candidates, |ord.seats|);
      if |ord.seats| > lim.maxSeats || runs == [] then RefundCard(ord, pay) else AcquireRun(ord, pay, runs, 0)
    case AcquireRun(ord, pay, runs, attempt) =>
      if Acquires(t, now, ord, runs[attempt], c) then
        var ids := Inventory.Normalised(runs[attempt]);
        ConfirmRun(ord, pay, runs[attempt], c.freshHold, ids, FencesOf(t', ord.event, ids))
      else if attempt + 1 < Least(MAX_ATTEMPTS, |runs|) then AcquireRun(ord, pay, runs, attempt + 1)
      else RefundCard(ord, pay)
    case ConfirmRun(ord, pay, run, hold, seats, fences) =>
      if ConfirmCount(t, ord.event, seats, fences, hold, now) == |seats| then Reallocate(run, hold, seats)
      else ReleaseRun(ord, pay, hold, seats)
    case ReleaseRun(ord, pay, _, _) => RefundCard(ord, pay)
    case _ => pc
  }

  /** The order after a statement that writes down the outcome. */
  function ClosingStatement(s: OrderState): OrderState {
    match s.pc
    case Reallocate(_, hold, seats) => s.(row := s.row.(hold := hold, seats := seats, reallocated := true), pc := MarkConfirmed)
    case MarkConfirmed => WithStatus(s, CONFIRMED, MarkTicketed)
    case MarkTicketed => WithStatus(s, TICKETED, Idle)
    case RefundCard(ord, pay) =>
      s.(refundCalls := s.refundCalls + [RefundCall(pay.reference, pay.amount)], pc := RecordRefund(pay))
    case RecordRefund(pay) => s.(refundRows := s.refundRows + [pay.amount], pc := MarkCompensated)
    case MarkCompensated => WithStatus(s, COMPENSATED, Idle)
    case _ => s
  }

  /** The order after one statement; t is the table before it and t' after. */
  function StateAfter(t: Table, t': Table, now: Time, s: OrderState, lim: Limits, c: Choice): OrderState
    requires PcFits(s.pc)
  {
    if PaymentStage(s.pc) then PaymentStatement(t, now, s, c)
    else if SeatStage(s.pc) then s.(pc := SeatStatement(t, t', now, s.pc, lim, c))
    else ClosingStatement(s)
  }

  // ---- Seats booked to an order ----

  ghost function BookedTo(t: Table, o: OrderId): set<Key> {
    set k | k in t && t[k].status == BOOKED && t[k].booking == Some(o)
  }

  /** Columns nothing here ever writes. */
  ghost predicate SameColumns(t: Table, t': Table) {
    t'.Keys == t.Keys && forall k | k in t :: t'[k].ordinal == t[k].ordinal && t'[k].rowId == t[k].rowId && t'[k].price == t[k].price
  }

  ghost predicate SameBookings(t: Table, t': Table) {
    SameColumns(t, t') && forall o :: BookedTo(t', o) == BookedTo(t, o)
  }

  lemma OthersBookNothing(t: Table, now: Time, step: Fencing.Step)
    requires !step.Confirm?
    ensures SameBookings(t, Fencing.Next(Fencing.World(t, now), step).table)
  {
    var f := Fencing.World(t, now);
    var t' := Fencing.Next(f, step).table;
    assert t'.Keys == t.Keys;
    forall k | k in t
      ensures t'[k].ordinal == t[k].ordinal && t'[k].rowId == t[k].rowId && t'[k].price == t[k].price
      ensures forall o :: t'[k].status == BOOKED && t'[k].booking == Some(o) <==> t[k].status == BOOKED && t[k].booking == Some(o)
    {
      if Fencing.DeedOf(f, step, k).Some? { Fencing.ListedChanges(f, step, k); } else { Fencing.UnlistedUnchanged(f, step, k); }
    }
    forall o ensures BookedTo(t', o) == BookedTo(t, o) {}
  }

  lemma ExtendBooksNothing(t: Table, event: int, seats: seq<int>, hold: HoldId, now: Time, secs: int)
    ensures SameBookings(t, Extended(t, event, seats, hold, now, secs))
  {
    OthersBookNothing(t, now, Fencing.Extend(event, seats, hold, secs));
  }

  lemma AcquireBooksNothing(t: Table, event: int, seats: seq<int>, hold: HoldId, user: string, now: Time, ttl: int)
    ensures SameBookings(t, AcquireTx(t, event, seats, hold, user, now, ttl).table)
  {
    OthersBookNothing(t, now, Fencing.Acquire(event, seats, hold, user, ttl));
  }

  lemma ReleaseBooksNothing(t: Table, now: Time, event: int, seats: seq<int>, hold: HoldId)
    ensures SameBookings(t, ReleaseTx(t, event, seats, hold).table)
  {
    OthersBookNothing(t, now, Fencing.Release(event, seats, hold));
  }

  /** A confirm that matches every seat books exactly those; one that does not, none. */
  lemma ConfirmBooks(t: Table, event: int, seats: seq<int>, fences: seq<int>, hold: HoldId, order: OrderId, now: Time)
    requires |seats| == |fences|
    ensures var t' := ConfirmTx(t, event, seats, fences, hold, order, now).table;
            && SameColumns(t, t')
            && (forall o | o != order :: BookedTo(t', o) == BookedTo(t, o))
            && BookedTo(t', order) == if ConfirmCount(t, event, seats, fences, hold, now) == |seats|
                                      then BookedTo(t, order) + Listing(event, seats) else BookedTo(t, order)
  {
    var t' := ConfirmTx(t, event, seats, fences, hold, order, now).table;
    ConfirmAllOrNothing(t, event, seats, fences, hold, now);
    if ConfirmCount(t, event, seats, fences, hold, now) == |seats| {
      forall k | k in t ensures ConfirmHits(t, event, seats, fences, hold, now, k) <==> k in Listing(event, seats) {
        if k in Listing(event, seats) {
          var i :| 0 <= i < |seats| && seats[i] == k.seat;
          assert k == Key(event, seats[i]);
        }
        if ConfirmHits(t, event, seats, fences, hold, now, k) { assert k == Key(event, k.seat); }
      }
      forall k | k in Listing(event, seats) ensures k in t && OnHold(t[k]) {
        var i :| 0 <= i < |seats| && seats[i] == k.seat;
        assert k == Key(event, seats[i]);
      }
    }
  }

  // ---- What holds of an order between any two statements ----

  /** Free seats side by side in one row, none over the bound. */
  ghost predicate SideBySide(t: Table, event: int, run: seq<int>, maxPrice: int) {
    (run != [] ==> Key(event, run[0]) in t)
    && forall i | 0 <= i < |run| ::
      && Key(event, run[i]) in t && t[Key(event, run[i])].price <= maxPrice
      && t[Key(event, run[i])].rowId == t[Key(event, run[0])].rowId
      && t[Key(event, run[i])].ordinal == t[Key(event, run[0])].ordinal + i
  }

  ghost predicate NoMoneyBack(s: OrderState) {
    s.refundRows == [] && s.refundCalls == []
  }

  ghost predicate Paid(s: OrderState) {
    && s.placed in s.captured && s.placed in s.payments && s.payments[s.placed].status == PayCaptured
  }

  /** The payment row never says more than the provider knows. */
  ghost predicate RowHonest(s: OrderState) {
    && (s.placed !in s.payments ==> s.placed !in s.captured)
    && (s.placed in s.payments && s.payments[s.placed].status == PayFailed ==> s.placed !in s.captured)
    && (s.placed in s.payments && s.payments[s.placed].status == PayCaptured ==> s.placed in s.captured)
  }

  ghost predicate Unpaid(s: OrderState) {
    s.placed !in s.captured && (s.placed in s.payments ==> s.payments[s.placed].status == PayFailed)
  }

  /** An order no statement is in progress for. */
  ghost predicate AtRest(booked: set<Key>, s: OrderState) {
    match s.row.status
    case PENDING => s.payments == map[] && s.captured == {} && NoMoneyBack(s) && booked == {}
    case AUTHORIZING => RowHonest(s) && NoMoneyBack(s) && booked == {}
    case CONFIRMING => Paid(s) && NoMoneyBack(s) && booked == {}
    case CONFIRMED => Paid(s) && NoMoneyBack(s) && booked == Listing(s.row.event, s.row.seats)
    case TICKETED => Paid(s) && NoMoneyBack(s) && booked == Listing(s.row.event, s.row.seats)
    case COMPENSATED => Paid(s) && booked == {} && s.refundRows == [s.row.amount]
                        && |s.refundCalls| == 1 && s.refundCalls[0].amount == s.row.amount
    case FAILED => Unpaid(s) && NoMoneyBack(s) && booked == {}
  }

  /** The saga's copy of the payment row, once it has acted on a capture. */
  ghost predicate Mid(booked: set<Key>, s: OrderState, ord: Order, pay: PaymentRow) {
    && ord.(status := s.row.status) == s.row && ord.hold == s.placed && !s.row.reallocated
    && Paid(s) && NoMoneyBack(s) && booked == {} && pay.amount == s.row.amount
  }

  ghost predicate Current(s: OrderState, ord: Order) {
    ord.(status := s.row.status) == s.row && ord.hold == s.placed
  }

  /** What holds of an order wherever its saga stands. */
  ghost predicate Sound(t: Table, s: OrderState) {
    && PcFits(s.pc)
    && s.row.seats != []
    && s.payments.Keys <= {s.placed} && s.captured <= {s.placed}
    && (s.placed in s.payments ==> s.payments[s.placed].amount == s.row.amount)
    && (!s.row.reallocated ==> s.row.hold == s.placed && |s.row.seats| == s.asked)
    && (s.row.reallocated ==> s.row.status in {CONFIRMED, TICKETED} || s.pc == MarkConfirmed)
    && (s.row.reallocated ==> exists run :: ReallocatedTo(t, s.row, s.asked, run))
  }

  ghost predicate OrderInv(t: Table, booked: set<Key>, s: OrderState) {
    Sound(t, s) && PcInv(t, booked, s)
  }

  /** The seats an order was moved to: one group of the asked size, side by side, no
      dearer together than what was paid. */
  ghost predicate ReallocatedTo(t: Table, row: Order, asked: nat, run: seq<int>) {
    && row.seats == Inventory.Normalised(run) && run != [] && |run| == asked
    && SideBySide(t, row.event, run, row.amount / |run|)
  }

  ghost predicate Affordable(t: Table, ord: Order, run: seq<int>) {
    ord.seats != [] && |run| == |ord.seats| && SideBySide(t, ord.event, run, MaxPrice(ord))
  }

  ghost predicate PaymentInv(booked: set<Key>, s: OrderState) {
    match s.pc
    case Idle => AtRest(booked, s)
    case ReadOrder => AtRest(booked, s)
    case MarkAuthorizing(ord) => Current(s, ord) && s.row.status == PENDING && AtRest(booked, s)
    case ExtendHold(ord) => Current(s, ord) && s.row.status == AUTHORIZING && s.payments == map[] && AtRest(booked, s)
    case Fail => s.row.status == AUTHORIZING && Unpaid(s) && NoMoneyBack(s) && booked == {}
    case InsertPayment(ord) => Current(s, ord) && s.row.status in {AUTHORIZING, CONFIRMING} && AtRest(booked, s)
    case ChargeCard(ord, pay) => Charging(booked, s, ord, pay)
    case RecordCharge(ord, pay, charge) =>
      Charging(booked, s, ord, pay)
      && (charge.status == Captured ==> s.placed in s.captured) && (charge.status == Declined ==> s.placed !in s.captured)
    case MarkConfirming(ord, pay) => Mid(booked, s, ord, pay) && s.row.status in {AUTHORIZING, CONFIRMING}
    case AskProvider(pay) => Asking(booked, s, pay)
    case ResolveCaptured(pay) => Asking(booked, s, pay) && s.placed in s.captured
    case ResolveFailed => s.row.status == AUTHORIZING && AtRest(booked, s) && s.placed !in s.captured
    case _ => false
  }

  ghost predicate SeatInv(t: Table, booked: set<Key>, s: OrderState) {
    s.row.status == CONFIRMING &&
    match s.pc
    case ReadFences(ord, pay) => Mid(booked, s, ord, pay)
    case ConfirmHeld(ord, pay, _) => Mid(booked, s, ord, pay)
    case SearchSeats(ord, pay) => Mid(booked, s, ord, pay)
    case AcquireRun(ord, pay, runs, _) => Mid(booked, s, ord, pay) && forall i | 0 <= i < |runs| :: Affordable(t, ord, runs[i])
    case ConfirmRun(ord, pay, run, _, seats, _) =>
      Mid(booked, s, ord, pay) && seats == Inventory.Normalised(run) && Affordable(t, ord, run)
    case ReleaseRun(ord, pay, _, _) => Mid(booked, s, ord, pay)
    case _ => false
  }

  ghost predicate ClosingInv(t: Table, booked: set<Key>, s: OrderState) {
    match s.pc
    case Reallocate(run, _, seats) =>
      s.row.status == CONFIRMING && !s.row.reallocated && Paid(s) && NoMoneyBack(s)
      && booked == Listing(s.row.event, seats) && seats == Inventory.Normalised(run) && Affordable(t, s.row, run)
    case MarkConfirmed =>
      s.row.status == CONFIRMING && Paid(s) && NoMoneyBack(s) && booked == Listing(s.row.event, s.row.seats)
    case MarkTicketed => s.row.status == CONFIRMED && AtRest(booked, s)
    case RefundCard(ord, pay) => Mid(booked, s, ord, pay) && s.row.status == CONFIRMING
    case RecordRefund(pay) => Refunding(booked, s) && pay.amount == s.row.amount && s.refundRows == []
    case MarkCompensated => Refunding(booked, s) && s.refundRows == [s.row.amount]
    case _ => false
  }

  /** The saga is asking the provider for the money. */
  ghost predicate Charging(booked: set<Key>, s: OrderState, ord: Order, pay: PaymentRow) {
    Current(s, ord) && Asking(booked, s, pay) && pay.status == PayPending
  }

  ghost predicate Asking(booked: set<Key>, s: OrderState, pay: PaymentRow) {
    s.row.status == AUTHORIZING && AtRest(booked, s) && s.placed in s.payments && pay == s.payments[s.placed]
  }

  ghost predicate Refunding(booked: set<Key>, s: OrderState) {
    && s.row.status == CONFIRMING && !s.row.reallocated && Paid(s) && booked == {}
    && |s.refundCalls| == 1 && s.refundCalls[0].amount == s.row.amount
  }

  ghost predicate PcInv(t: Table, booked: set<Key>, s: OrderState) {
    if PaymentStage(s.pc) then PaymentInv(booked, s)
    else if SeatStage(s.pc) then SeatInv(t, booked, s)
    else ClosingInv(t, booked, s)
  }

  lemma SideBySideKept(t: Table, t': Table, event: int, run: seq<int>, maxPrice: int)
    requires SameColumns(t, t') && SideBySide(t, event, run, maxPrice)
    ensures SideBySide(t', event, run, maxPrice)
  {
  }

  lemma ReallocationKept(t: Table, t': Table, row: Order, asked: nat)
    requires SameColumns(t, t') && exists run :: ReallocatedTo(t, row, asked, run)
    ensures exists run :: ReallocatedTo(t', row, asked, run)
  {
    var run :| ReallocatedTo(t, row, asked, run);
    SideBySideKept(t, t', row.event, run, row.amount / |run|);
    assert ReallocatedTo(t', row, asked, run);
  }

  lemma PcInvKept(t: Table, t': Table, booked: set<Key>, s: OrderState)
    requires PcInv(t, booked, s) && SameColumns(t, t')
    ensures PcInv(t', booked, s)
  {
    match s.pc
    case AcquireRun(ord, _, runs, _) =>
      forall i | 0 <= i < |runs| ensures Affordable(t', ord, runs[i]) {
        SideBySideKept(t, t', ord.event, runs[i], MaxPrice(ord));
      }
    case ConfirmRun(ord, _, run, _, _, _) => SideBySideKept(t, t', ord.event, run, MaxPrice(ord));
    case Reallocate(run, _, _) => SideBySideKept(t, t', s.row.event, run, MaxPrice(s.row));
    case _ =>
  }

  /** What other people do to the table leaves an order's invariant alone. */
  lemma InvKept(t: Table, t': Table, booked: set<Key>, s: OrderState)
    requires OrderInv(t, booked, s) && SameColumns(t, t')
    ensures OrderInv(t', booked, s)
  {
    if s.row.reallocated { ReallocationKept(t, t', s.row, s.asked); }
    PcInvKept(t, t', booked, s);
  }

  lemma RunsAffordable(t: Table, ord: Order, cs: seq<Candidate>)
    requires ord.seats != [] && IsCandidateList(t, ord.event, MaxPrice(ord), cs)
    ensures forall i | 0 <= i < |Runs(cs, |ord.seats|)| :: Affordable(t, ord, Runs(cs, |ord.seats|)[i])
  {
    var runs := Runs(cs, |ord.seats|);
    forall i | 0 <= i < |runs| ensures Affordable(t, ord, runs[i]) {
      var run := runs[i];
      assert run in runs;
      RunsAreTogether(t, ord.event, MaxPrice(ord), cs, |ord.seats|, run);
      var rowId, first :| Together(t, ord.event, MaxPrice(ord), run, rowId, first);
      forall j | 0 <= j < |run|
        ensures Key(ord.event, run[j]) in t && t[Key(ord.event, run[j])].price <= MaxPrice(ord)
        ensures t[Key(ord.event, run[j])].rowId == rowId && t[Key(ord.event, run[j])].ordinal == first + j
      {
        assert Offered(t, ord.event, MaxPrice(ord), run[j]);
      }
    }
  }

  /** A seat statement that was to book seats to the order. */
  predicate Books(t: Table, now: Time, pc: Pc)
    requires PcFits(pc)
  {
    (pc.ConfirmHeld? && ConfirmCount(t, pc.ord.event, pc.ord.seats, pc.fences, pc.ord.hold, now) == |pc.ord.seats|)
    || (pc.ConfirmRun? && ConfirmCount(t, pc.ord.event, pc.seats, pc.fences, pc.hold, now) == |pc.seats|)
  }

  function SeatsOf(pc: Pc): set<Key> {
    if pc.ConfirmHeld? then Listing(pc.ord.event, pc.ord.seats)
    else if pc.ConfirmRun? then Listing(pc.ord.event, pc.seats)
    else {}
  }

  lemma HoldStatementBooks(t: Table, now: Time, o: OrderId, pc: Pc, lim: Limits, c: Choice)
    requires PcFits(pc) && !pc.ConfirmHeld? && !pc.ConfirmRun?
    ensures SameBookings(t, TableAfter(t, now, o, pc, lim, c))
  {
    match pc
    case ExtendHold(ord) => ExtendBooksNothing(t, ord.event, Inventory.Normalised(ord.seats), ord.hold, now, EXTEND_SECONDS);
    case AcquireRun(ord, _, runs, attempt) =>
      AcquireBooksNothing(t, ord.event, Inventory.Normalised(runs[attempt]), c.freshHold, ord.user, now, lim.holdTtl);
    case ReleaseRun(ord, _, hold, seats) => ReleaseBooksNothing(t, now, ord.event, seats, hold);
    case _ =>
  }

  /** What one statement of an order's saga does to the seats booked to anybody. */
  lemma StatementBooks(t: Table, now: Time, o: OrderId, pc: Pc, lim: Limits, c: Choice)
    requires PcFits(pc)
    ensures var t' := TableAfter(t, now, o, pc, lim, c);
            && SameColumns(t, t')
            && (forall p | p != o :: BookedTo(t', p) == BookedTo(t, p))
            && BookedTo(t', o) == if Books(t, now, pc) then BookedTo(t, o) + SeatsOf(pc) else BookedTo(t, o)
  {
    if pc.ConfirmHeld? { ConfirmBooks(t, pc.ord.event, pc.ord.seats, pc.fences, pc.ord.hold, o, now); }
    else if pc.ConfirmRun? { ConfirmBooks(t, pc.ord.event, pc.seats, pc.fences, pc.hold, o, now); }
    else { HoldStatementBooks(t, now, o, pc, lim, c); }
  }

  lemma OpeningKeepsInv(t: Table, t': Table, now: Time, booked: set<Key>, s: OrderState, c: Choice)
    requires PaymentInv(booked, s)
    requires s.pc.Idle? || s.pc.ReadOrder? || s.pc.MarkAuthorizing? || s.pc.ExtendHold? || s.pc.Fail? || s.pc.MarkConfirming?
    requires s.row.reallocated ==> s.row.status in {CONFIRMED, TICKETED}
    requires !s.row.reallocated ==> s.row.hold == s.placed
    ensures PcInv(t', booked, PaymentStatement(t, now, s, c))
  {
  }

  lemma ChargingKeepsInv(t: Table, t': Table, now: Time, booked: set<Key>, s: OrderState, c: Choice)
    requires PaymentInv(booked, s) && Sound(t', s)
    requires s.pc.InsertPayment? || s.pc.ChargeCard? || s.pc.RecordCharge?
    ensures PcInv(t', booked, PaymentStatement(t, now, s, c))
  {
  }

  lemma ResolvingKeepsInv(t: Table, t': Table, now: Time, booked: set<Key>, s: OrderState, c: Choice)
    requires PaymentInv(booked, s) && Sound(t', s)
    requires s.pc.AskProvider? || s.pc.ResolveCaptured? || s.pc.ResolveFailed?
    ensures PcInv(t', booked, PaymentStatement(t, now, s, c))
  {
  }

  lemma PaymentStatementSound(t: Table, t': Table, now: Time, booked: set<Key>, s: OrderState, c: Choice)
    requires PaymentInv(booked, s) && Sound(t', s)
    ensures Sound(t', PaymentStatement(t, now, s, c))
  {
    if s.row.reallocated {
      var run :| ReallocatedTo(t', s.row, s.asked, run);
      assert ReallocatedTo(t', PaymentStatement(t, now, s, c).row, s.asked, run);
    }
  }

  lemma PaymentStatementKeepsInv(t: Table, t': Table, now: Time, booked: set<Key>, s: OrderState, c: Choice)
    requires Sound(t', s) && PaymentInv(booked, s) && PaymentStage(s.pc)
    ensures PcInv(t', booked, PaymentStatement(t, now, s, c))
  {
    if s.pc.InsertPayment? || s.pc.ChargeCard? || s.pc.RecordCharge? { ChargingKeepsInv(t, t', now, booked, s, c); }
    else if s.pc.AskProvider? || s.pc.ResolveCaptured? || s.pc.ResolveFailed? { ResolvingKeepsInv(t, t', now, booked, s, c); }
    else { OpeningKeepsInv(t, t', now, booked, s, c); }
  }

  lemma SeatStatementSound(t: Table, t': Table, now: Time, booked: set<Key>, s: OrderState, lim: Limits, c: Choice)
    requires Sound(t', s) && SeatInv(t', booked, s)
    ensures Sound(t', s.(pc := SeatStatement(t, t', now, s.pc, lim, c)))
  {
  }

  lemma HeldSeatsKeepInv(t: Table, t': Table, now: Time, booked: set<Key>, s: OrderState, lim: Limits, c: Choice)
    requires Sound(t', s) && SeatInv(t', booked, s) && (s.pc.ReadFences? || s.pc.ConfirmHeld? || s.pc.SearchSeats?)
    requires s.pc.SearchSeats? ==> IsCandidateList(t', s.pc.ord.event, MaxPrice(s.pc.ord), c.candidates)
    ensures PcInv(t', if Books(t, now, s.pc) then booked + SeatsOf(s.pc) else booked,
                  s.(pc := SeatStatement(t, t', now, s.pc, lim, c)))
  {
    if s.pc.SearchSeats? { RunsAffordable(t', s.pc.ord, c.candidates); }
  }

  lemma OtherSeatsKeepInv(t: Table, t': Table, now: Time, booked: set<Key>, s: OrderState, lim: Limits, c: Choice)
    requires Sound(t', s) && SeatInv(t', booked, s) && (s.pc.AcquireRun? || s.pc.ConfirmRun? || s.pc.ReleaseRun?)
    ensures PcInv(t', if Books(t, now, s.pc) then booked + SeatsOf(s.pc) else booked,
                  s.(pc := SeatStatement(t, t', now, s.pc, lim, c)))
  {
  }

  lemma SeatStatementKeepsInv(t: Table, t': Table, now: Time, booked: set<Key>, s: OrderState, lim: Limits, c: Choice)
    requires Sound(t', s) && SeatInv(t', booked, s) && SeatStage(s.pc)
    requires s.pc.SearchSeats? ==> IsCandidateList(t', s.pc.ord.event, MaxPrice(s.pc.ord), c.candidates)
    ensures PcInv(t', if Books(t, now, s.pc) then booked + SeatsOf(s.pc) else booked,
                  s.(pc := SeatStatement(t, t', now, s.pc, lim, c)))
  {
    if s.pc.ReadFences? || s.pc.ConfirmHeld? || s.pc.SearchSeats? { HeldSeatsKeepInv(t, t', now, booked, s, lim, c); }
    else { OtherSeatsKeepInv(t, t', now, booked, s, lim, c); }
  }

  lemma ConfirmedKeepsInv(t: Table, booked: set<Key>, s: OrderState)
    requires ClosingInv(t, booked, s)
    requires s.pc.Reallocate? || s.pc.MarkConfirmed? || s.pc.MarkTicketed?
    ensures PcInv(t, booked, ClosingStatement(s))
  {
  }

  lemma RefundKeepsInv(t: Table, booked: set<Key>, s: OrderState)
    requires ClosingInv(t, booked, s)
    requires s.pc.RefundCard? || s.pc.RecordRefund? || s.pc.MarkCompensated?
    ensures PcInv(t, booked, ClosingStatement(s))
  {
  }

  lemma ClosingStatementSound(t: Table, booked: set<Key>, s: OrderState)
    requires Sound(t, s) && ClosingInv(t, booked, s)
    ensures Sound(t, ClosingStatement(s))
  {
    var s' := ClosingStatement(s);
    if s.pc.Reallocate? {
      NormalisedNonempty(s.pc.run);
      assert ReallocatedTo(t, s'.row, s.asked, s.pc.run);
    } else if s.row.reallocated {
      var run :| ReallocatedTo(t, s.row, s.asked, run);
      assert ReallocatedTo(t, s'.row, s.asked, run);
    }
  }

  lemma StatementSound(t: Table, t': Table, now: Time, booked: set<Key>, s: OrderState, lim: Limits, c: Choice)
    requires OrderInv(t', booked, s)
    ensures Sound(t', StateAfter(t, t', now, s, lim, c))
  {
    if PaymentStage(s.pc) { PaymentStatementSound(t, t', now, booked, s, c); }
    else if SeatStage(s.pc) { SeatStatementSound(t, t', now, booked, s, lim, c); }
    else { ClosingStatementSound(t', booked, s); }
  }

  lemma StatementMovesOn(t: Table, t': Table, now: Time, booked: set<Key>, s: OrderState, lim: Limits, c: Choice)
    requires OrderInv(t', booked, s)
    requires s.pc.SearchSeats? ==> IsCandidateList(t', s.pc.ord.event, MaxPrice(s.pc.ord), c.candidates)
    ensures PcInv(t', if Books(t, now, s.pc) then booked + SeatsOf(s.pc) else booked, StateAfter(t, t', now, s, lim, c))
  {
    if PaymentStage(s.pc) { PaymentStatementKeepsInv(t, t', now, booked, s, c); }
    else if SeatStage(s.pc) { SeatStatementKeepsInv(t, t', now, booked, s, lim, c); }
    else if s.pc.Reallocate? || s.pc.MarkConfirmed? || s.pc.MarkTicketed? { ConfirmedKeepsInv(t', booked, s); }
    else { RefundKeepsInv(t', booked, s); }
  }

  /** Every statement keeps its order's invariant. */
  lemma StatementKeepsInv(t: Table, now: Time, o: OrderId, s: OrderState, lim: Limits, c: Choice)
    requires OrderInv(t, BookedTo(t, o), s)
    requires s.pc.SearchSeats? ==> IsCandidateList(t, s.pc.ord.event, MaxPrice(s.pc.ord), c.candidates)
    ensures var t' := TableAfter(t, now, o, s.pc, lim, c);
        OrderInv(t', BookedTo(t', o), StateAfter(t, t', now, s, lim, c))
  {
    var t' := TableAfter(t, now, o, s.pc, lim, c);
    StatementBooks(t, now, o, s.pc, lim, c);
    InvKept(t, t', BookedTo(t, o), s);
    StatementSound(t, t', now, BookedTo(t, o), s, lim, c);
    StatementMovesOn(t, t', now, BookedTo(t, o), s, lim, c);
  }

  lemma NormalisedNonempty(run: seq<int>)
    requires run != []
    ensures Inventory.Normalised(run) != []
  {
    Inventory.NormalisedSound(run);
    assert run[0] in run;
  }
}
