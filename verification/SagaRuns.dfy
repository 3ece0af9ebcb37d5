/** Whole runs of checkouts: any number of orders and other users, the clock, the
    reconciler, and processes that die. */
module SagaRuns {
  import opened Wrappers
  import opened EventSeats
  import opened Payment
  import Fencing
  import BestAvailable
  import Inventory
  import Sorting
  import opened Saga

  datatype World = World(table: Table, now: Time, orders: map<OrderId, OrderState>)

  datatype Move =
    | Others(step: Fencing.Step)
    | Place(o: OrderId, user: string, hold: HoldId, held: seq<Key>)
    | Start(o: OrderId)
    | Reconcile(o: OrderId)
    | Statement(o: OrderId, choice: Choice)
    | Crash(o: OrderId)

  /** The seats on a hold, as the query returns them. */
  ghost predicate IsHoldListing(t: Table, hold: HoldId, held: seq<Key>) {
    && (forall i, j | 0 <= i < j < |held| :: held[i].seat <= held[j].seat && held[i] != held[j])
    && (forall k :: k in held <==> k in t && t[k].hold == Some(hold))
  }

  /** The sum of the prices locked when the seats were held. */
  function LockedTotal(t: Table, held: seq<Key>): int
    requires forall i | 0 <= i < |held| :: held[i] in t
  {
    if held == [] then 0
    else
      var locked := t[held[|held| - 1]].holdPrice;
      LockedTotal(t, held[..|held| - 1]) + (if locked.Some? then locked.value else 0)
  }

  function SeatIds(held: seq<Key>): (seats: seq<int>)
    ensures |seats| == |held|
  {
    seq(|held|, i requires 0 <= i < |held| => held[i].seat)
  }

  /** When a move can happen: the source's own checks and constraints. Other users
      never confirm: only sagas do, and each confirms for its own order. A saga's new
      hold id is fresh, so not the one its order was placed with. */
  ghost predicate Enabled(w: World, m: Move) {
    match m
    case Others(step) => !step.Confirm?
    case Place(o, user, hold, held) =>
      && o !in w.orders && (forall p | p in w.orders :: w.orders[p].row.hold != hold)
      && IsHoldListing(w.table, hold, held) && held != [] && w.table[held[0]].heldBy == Some(user)
      && LockedTotal(w.table, held) >= 0
    case Start(o) => o in w.orders && w.orders[o].pc == Idle
    case Reconcile(o) =>
      && o in w.orders && w.orders[o].pc == Idle
      && var s := w.orders[o]; s.placed in s.payments && s.payments[s.placed].status in {PayPending, PayUnknown}
    case Statement(o, c) =>
      && o in w.orders && w.orders[o].pc != Idle && PcFits(w.orders[o].pc)
      && (w.orders[o].pc.SearchSeats? ==>
            var ord := w.orders[o].pc.ord;
            ord.seats != [] && BestAvailable.IsCandidateList(w.table, ord.event, MaxPrice(ord), c.candidates))
      && (w.orders[o].pc.AcquireRun? ==> c.freshHold != w.orders[o].placed)
    case Crash(o) => o in w.orders
  }

  function NewOrder(user: string, hold: HoldId, event: int, seats: seq<int>, amount: nat): OrderState {
    OrderState(Order(user, event, hold, seats, amount, PENDING, false), hold, |seats|, map[], {}, [], [], Idle)
  }

  ghost function Next(w: World, lim: Limits, m: Move): World
    requires Enabled(w, m)
  {
    match m
    case Others(step) =>
      var f := Fencing.Next(Fencing.World(w.table, w.now), step);
      w.(table := f.table, now := f.now)
    case Place(o, user, hold, held) =>
      w.(orders := w.orders[o := NewOrder(user, hold, held[0].event, SeatIds(held), LockedTotal(w.table, held))])
    case Start(o) => w.(orders := w.orders[o := w.orders[o].(pc := ReadOrder)])
    case Reconcile(o) =>
      var s := w.orders[o];
      w.(orders := w.orders[o := s.(pc := AskProvider(s.payments[s.placed]))])
    case Statement(o, c) =>
      var s := w.orders[o];
      var t' := TableAfter(w.table, w.now, o, s.pc, lim, c);
      w.(table := t', orders := w.orders[o := StateAfter(w.table, t', w.now, s, lim, c)])
    case Crash(o) => w.(orders := w.orders[o := w.orders[o].(pc := Idle)])
  }

  /** Which crashes a run may have: none between a deed and its record, none between a
      reallocation and the next status, or any. */
  datatype Crashes = BetweenDeedAndRecord | BeforeReallocation | Anywhere

  /** Between these statements and the ones before them, something has been done that
      the order's row does not yet say. */
  predicate Unrecorded(pc: Pc) {
    pc.Reallocate? || pc.MarkConfirmed? || pc.RecordRefund? || pc.MarkCompensated?
  }

  predicate Tolerated(w: World, m: Move, crashes: Crashes) {
    m.Crash? && m.o in w.orders ==>
      var s := w.orders[m.o];
      match crashes
      case BetweenDeedAndRecord => !Unrecorded(s.pc)
      case BeforeReallocation => !(s.row.reallocated && s.pc == MarkConfirmed)
      case Anywhere => true
  }

  /** Every move of the run is possible when its turn comes. */
  ghost predicate Possible(w: World, lim: Limits, moves: seq<Move>, crashes: Crashes)
    decreases moves
  {
    moves != [] ==>
      Enabled(w, moves[0]) && Tolerated(w, moves[0], crashes)
          && Possible(Next(w, lim, moves[0]), lim, moves[1..], crashes)
  }

  ghost function Run(w: World, lim: Limits, moves: seq<Move>, crashes: Crashes): World
    requires Possible(w, lim, moves, crashes)
    decreases moves
  {
    if moves == [] then w else Run(Next(w, lim, moves[0]), lim, moves[1..], crashes)
  }

  ghost predicate Fresh(w: World) {
    Fencing.Untouched(w.table) && w.orders == map[]
  }

  // ---- What an order costs ----

  function PriceTotal(seats: seq<Inventory.HeldSeat>): int {
    if seats == [] then 0 else PriceTotal(seats[..|seats| - 1]) + seats[|seats| - 1].price
  }

  lemma {:induction false} LockedIsTotal(t: Table, event: int, held: seq<Key>, seats: seq<Inventory.HeldSeat>)
    requires |held| == |seats|
    requires forall i | 0 <= i < |held| ::
               held[i] == Key(event, seats[i].seat) && held[i] in t && t[held[i]].holdPrice == Some(seats[i].price)
    ensures LockedTotal(t, held) == PriceTotal(seats)
  {
    if held != [] { LockedIsTotal(t, event, held[..|held| - 1], seats[..|seats| - 1]); }
  }

  /** The listing of a hold that has exactly these seats has them in this order. */
  lemma ListingIsTheHold(t: Table, event: int, seats: seq<int>, user: string, id: HoldId, expires: Time,
                         hold: Inventory.Hold, held: seq<Key>)
    requires IsHoldListing(t, id, held) && Inventory.HandsBack(t, event, seats, user, id, expires, hold)
    requires Sorting.StrictlyAscending(seats) && forall k | k in t && t[k].hold == Some(id) :: Listed(k, event, seats)
    ensures SeatIds(held) == seats && forall i | 0 <= i < |held| :: held[i] == Key(event, seats[i])
  {
    var ids := SeatIds(held);
    forall i | 0 <= i < |held| ensures held[i] == Key(event, ids[i]) && ids[i] in seats {
      assert held[i] in held;
    }
    forall i, j | 0 <= i < j < |ids| ensures ids[i] < ids[j] {
      assert held[i] == Key(event, ids[i]) && held[j] == Key(event, ids[j]);
    }
    forall x | x in seats ensures x in ids {
      var i :| 0 <= i < |seats| && seats[i] == x;
      assert Key(event, x) in held;
      var j :| 0 <= j < |held| && held[j] == Key(event, x);
      assert ids[j] == x;
    }
    Sorting.AscendingUnique(ids, seats);
  }

  /** An order placed on a hold is for that hold's seats at the prices handed back with it. */
  lemma OrderCostsItsHold(w: World, lim: Limits, o: OrderId, user: string, id: HoldId, held: seq<Key>, event: int,
                          seats: seq<int>, expires: Time, hold: Inventory.Hold)
    requires Enabled(w, Place(o, user, id, held)) && Inventory.HandsBack(w.table, event, seats, user, id, expires, hold)
    requires Sorting.StrictlyAscending(seats)
    requires forall k | k in w.table && w.table[k].hold == Some(id) :: Listed(k, event, seats)
    ensures var row := Next(w, lim, Place(o, user, id, held)).orders[o].row;
            && row.event == event && row.seats == seats && row.amount == PriceTotal(hold.seats)
            && row.user == user && row.hold == id && row.status == PENDING && !row.reallocated
  {
    ListingIsTheHold(w.table, event, seats, user, id, expires, hold, held);
    LockedIsTotal(w.table, event, held, hold.seats);
  }

  // ---- The invariant of the whole world ----

  ghost predicate Inv(w: World) {
    && (forall o | o in w.orders :: OrderInv(w.table, BookedTo(w.table, o), w.orders[o]))
    && (forall o | o !in w.orders :: BookedTo(w.table, o) == {})
  }

  /** Exactly when a crash leaves the order in a state its next run can pick up. */
  lemma CrashKeepsInvIff(t: Table, booked: set<Key>, s: OrderState)
    requires OrderInv(t, booked, s)
    ensures OrderInv(t, booked, s.(pc := Idle)) <==> !Unrecorded(s.pc)
  {
    var s' := s.(pc := Idle);
    assert PcInv(t, booked, s') <==> AtRest(booked, s');
    if PaymentStage(s.pc) { PaymentCrash(booked, s); }
    else if SeatStage(s.pc) { SeatCrash(t, booked, s); }
    else { ClosingCrash(t, booked, s); }
    if !Unrecorded(s.pc) { CrashedIsSound(t, booked, s); }
  }

  lemma CrashedIsSound(t: Table, booked: set<Key>, s: OrderState)
    requires Sound(t, s) && s.pc != MarkConfirmed
    ensures Sound(t, s.(pc := Idle))
  {
    if s.row.reallocated {
      var run :| ReallocatedTo(t, s.row, s.asked, run);
      assert ReallocatedTo(t, s.(pc := Idle).row, s.asked, run);
    }
  }

  lemma PaymentCrash(booked: set<Key>, s: OrderState)
    requires PaymentStage(s.pc) && PaymentInv(booked, s)
    ensures AtRest(booked, s.(pc := Idle))
  {
  }

  lemma SeatCrash(t: Table, booked: set<Key>, s: OrderState)
    requires SeatStage(s.pc) && SeatInv(t, booked, s)
    ensures AtRest(booked, s.(pc := Idle))
  {
  }

  lemma ClosingCrash(t: Table, booked: set<Key>, s: OrderState)
    requires ClosingInv(t, booked, s) && s.row.seats != []
    ensures AtRest(booked, s.(pc := Idle)) <==> !Unrecorded(s.pc)
  {
    match s.pc
    case Reallocate(run, _, seats) =>
      NormalisedNonempty(run);
      assert Key(s.row.event, seats[0]) in booked;
    case MarkConfirmed =>
      assert Key(s.row.event, s.row.seats[0]) in booked;
    case _ =>
  }

  /** A move that touches one order and no seat. */
  lemma OrderMoveKeepsInv(w: World, o: OrderId, s: OrderState)
    requires Inv(w) && OrderInv(w.table, BookedTo(w.table, o), s)
    ensures Inv(w.(orders := w.orders[o := s]))
  {
  }

  lemma PlacedInv(t: Table, user: string, hold: HoldId, event: int, seats: seq<int>, amount: nat)
    requires seats != []
    ensures OrderInv(t, {}, NewOrder(user, hold, event, seats, amount))
  {
  }

  lemma StepKeepsInv(w: World, lim: Limits, m: Move)
    requires Inv(w) && Enabled(w, m) && Tolerated(w, m, BetweenDeedAndRecord)
    ensures Inv(Next(w, lim, m))
  {
    match m
    case Others(step) => OthersKeepInv(w, lim, step);
    case Statement(o, c) => StatementKeepsWorld(w, lim, o, c);
    case Place(o, user, hold, held) =>
      PlacedInv(w.table, user, hold, held[0].event, SeatIds(held), LockedTotal(w.table, held));
      OrderMoveKeepsInv(w, o, NewOrder(user, hold, held[0].event, SeatIds(held), LockedTotal(w.table, held)));
    case _ => JumpKeepsInv(w, lim, m);
  }

  lemma JumpKeepsInv(w: World, lim: Limits, m: Move)
    requires Inv(w) && Enabled(w, m) && Tolerated(w, m, BetweenDeedAndRecord)
    requires m.Start? || m.Reconcile? || m.Crash?
    ensures Inv(Next(w, lim, m))
  {
    var s := w.orders[m.o];
    var pc := Next(w, lim, m).orders[m.o].pc;
    if m.Crash? { CrashKeepsInvIff(w.table, BookedTo(w.table, m.o), s); }
    else { RestartKeepsInv(w.table, BookedTo(w.table, m.o), s, pc); }
    OrderMoveKeepsInv(w, m.o, s.(pc := pc));
  }

  lemma RestartKeepsInv(t: Table, booked: set<Key>, s: OrderState, pc: Pc)
    requires OrderInv(t, booked, s) && s.pc == Idle
    requires pc == ReadOrder
             || (s.placed in s.payments && s.payments[s.placed].status in {PayPending, PayUnknown} && pc == AskProvider(s.payments[s.placed]))
    ensures OrderInv(t, booked, s.(pc := pc))
  {
    RestartIsSound(t, s, pc);
    RestartMovesOn(t, booked, s, pc);
  }

  lemma RestartIsSound(t: Table, s: OrderState, pc: Pc)
    requires Sound(t, s) && s.pc == Idle && (pc == ReadOrder || pc.AskProvider?)
    ensures Sound(t, s.(pc := pc))
  {
    if s.row.reallocated {
      var run :| ReallocatedTo(t, s.row, s.asked, run);
      assert ReallocatedTo(t, s.(pc := pc).row, s.asked, run);
    }
  }

  lemma RestartMovesOn(t: Table, booked: set<Key>, s: OrderState, pc: Pc)
    requires AtRest(booked, s)
    requires pc == ReadOrder
             || (s.placed in s.payments && s.payments[s.placed].status in {PayPending, PayUnknown} && pc == AskProvider(s.payments[s.placed]))
    ensures PcInv(t, booked, s.(pc := pc))
  {
  }

  lemma OthersKeepInv(w: World, lim: Limits, step: Fencing.Step)
    requires Inv(w) && !step.Confirm?
    ensures Inv(Next(w, lim, Others(step)))
  {
    var w' := Next(w, lim, Others(step));
    OthersBookNothing(w.table, w.now, step);
    forall o | o in w'.orders ensures OrderInv(w'.table, BookedTo(w'.table, o), w'.orders[o]) {
      InvKept(w.table, w'.table, BookedTo(w.table, o), w.orders[o]);
    }
  }

  lemma StatementKeepsWorld(w: World, lim: Limits, o: OrderId, c: Choice)
    requires Inv(w) && Enabled(w, Statement(o, c))
    ensures Inv(Next(w, lim, Statement(o, c)))
  {
    var t' := TableAfter(w.table, w.now, o, w.orders[o].pc, lim, c);
    StatementBooks(w.table, w.now, o, w.orders[o].pc, lim, c);
    StatementKeepsInv(w.table, w.now, o, w.orders[o], lim, c);
    OneOrderMoves(w, t', o, StateAfter(w.table, t', w.now, w.orders[o], lim, c));
  }

  /** One order moves, and books seats for itself only. */
  lemma OneOrderMoves(w: World, t': Table, o: OrderId, s': OrderState)
    requires Inv(w) && o in w.orders && SameColumns(w.table, t')
    requires forall p | p != o :: BookedTo(t', p) == BookedTo(w.table, p)
    requires OrderInv(t', BookedTo(t', o), s')
    ensures Inv(w.(table := t', orders := w.orders[o := s']))
  {
    forall p | p in w.orders && p != o ensures OrderInv(t', BookedTo(t', p), w.orders[p]) {
      InvKept(w.table, t', BookedTo(w.table, p), w.orders[p]);
    }
  }

  lemma {:induction false} RunKeepsInv(w: World, lim: Limits, moves: seq<Move>)
    requires Inv(w) && Possible(w, lim, moves, BetweenDeedAndRecord)
    ensures Inv(Run(w, lim, moves, BetweenDeedAndRecord))
    decreases moves
  {
    if moves != [] {
      StepKeepsInv(w, lim, moves[0]);
      RunKeepsInv(Next(w, lim, moves[0]), lim, moves[1..]);
    }
  }

  // ---- End states ----

  /** Money and seats agree wherever an order comes to rest: ticketed means paid under one
      key, not refunded, and exactly its own seats booked to it; compensated means paid
      under one key, refunded in full once, no seat booked to it; failed means never paid. */
  ghost predicate EndsWell(t: Table, o: OrderId, s: OrderState) {
    && (s.row.status == TICKETED ==>
          Paid(s) && s.captured == {s.placed} && NoMoneyBack(s) && BookedTo(t, o) == Listing(s.row.event, s.row.seats))
    && (s.row.status == COMPENSATED ==>
          Paid(s) && s.captured == {s.placed} && s.refundRows == [s.row.amount] && |s.refundCalls| == 1
              && s.refundCalls[0].amount == s.row.amount
          && BookedTo(t, o) == {})
    && (s.row.status == FAILED ==> s.captured == {} && NoMoneyBack(s) && BookedTo(t, o) == {})
  }

  lemma StatusFixesState(t: Table, booked: set<Key>, s: OrderState)
    requires OrderInv(t, booked, s) && s.row.status in {TICKETED, COMPENSATED, FAILED}
    ensures AtRest(booked, s) && (s.pc == Idle || s.pc == ReadOrder)
  {
  }

  lemma EndStatesAgree(w: World, lim: Limits, moves: seq<Move>, o: OrderId)
    requires Fresh(w) && Possible(w, lim, moves, BetweenDeedAndRecord)
    requires o in Run(w, lim, moves, BetweenDeedAndRecord).orders
    ensures var w' := Run(w, lim, moves, BetweenDeedAndRecord); EndsWell(w'.table, o, w'.orders[o])
  {
    var w' := Run(w, lim, moves, BetweenDeedAndRecord);
    FreshInv(w);
    RunKeepsInv(w, lim, moves);
    var s := w'.orders[o];
    if s.row.status in {TICKETED, COMPENSATED, FAILED} { StatusFixesState(w'.table, BookedTo(w'.table, o), s); }
  }

  /** Once ticketed, compensated or failed, an order's row, payments, captures and
      refunds never change again: a failed order is never captured later. */
  lemma FinalStays(w: World, lim: Limits, m: Move, o: OrderId)
    requires Inv(w) && Enabled(w, m) && o in w.orders && w.orders[o].row.status in {TICKETED, COMPENSATED, FAILED}
    ensures var w' := Next(w, lim, m); o in w'.orders && w'.orders[o] == w.orders[o].(pc := w'.orders[o].pc)
  {
    StatusFixesState(w.table, BookedTo(w.table, o), w.orders[o]);
  }

  lemma {:induction false} FinalForever(w: World, lim: Limits, moves: seq<Move>, o: OrderId)
    requires Inv(w) && Possible(w, lim, moves, BetweenDeedAndRecord)
    requires o in w.orders && w.orders[o].row.status in {TICKETED, COMPENSATED, FAILED}
    ensures var w' := Run(w, lim, moves, BetweenDeedAndRecord);
            o in w'.orders && w'.orders[o] == w.orders[o].(pc := w'.orders[o].pc)
            && BookedTo(w'.table, o) == BookedTo(w.table, o)
    decreases moves
  {
    if moves != [] {
      var w1 := Next(w, lim, moves[0]);
      StepKeepsInv(w, lim, moves[0]);
      FinalStays(w, lim, moves[0], o);
      StatusFixesState(w.table, BookedTo(w.table, o), w.orders[o]);
      StatusFixesState(w1.table, BookedTo(w1.table, o), w1.orders[o]);
      FinalForever(w1, lim, moves[1..], o);
    }
  }

  ghost predicate LeftConfirmed(s: OrderState) {
    s.row.status == CONFIRMED && (s.pc == Idle || s.pc == ReadOrder)
  }

  lemma ConfirmedStep(w: World, lim: Limits, m: Move, o: OrderId)
    requires Inv(w) && Enabled(w, m) && o in w.orders && LeftConfirmed(w.orders[o])
    ensures var w' := Next(w, lim, m);
            o in w'.orders && LeftConfirmed(w'.orders[o]) && w'.orders[o] == w.orders[o].(pc := w'.orders[o].pc)
  {
    assert OrderInv(w.table, BookedTo(w.table, o), w.orders[o]);
  }

  /** An order whose saga stopped between the confirmed and the ticketed write keeps its
      seats, its payment and that status for ever: neither a rerun nor the reconciler
      tickets it. */
  lemma {:induction false} ConfirmedForever(w: World, lim: Limits, moves: seq<Move>, o: OrderId)
    requires Inv(w) && Possible(w, lim, moves, BetweenDeedAndRecord) && o in w.orders && LeftConfirmed(w.orders[o])
    ensures var w' := Run(w, lim, moves, BetweenDeedAndRecord);
            o in w'.orders && LeftConfirmed(w'.orders[o]) && w'.orders[o] == w.orders[o].(pc := w'.orders[o].pc)
            && BookedTo(w'.table, o) == Listing(w'.orders[o].row.event, w'.orders[o].row.seats)
    decreases moves
  {
    if moves != [] {
      StepKeepsInv(w, lim, moves[0]);
      ConfirmedStep(w, lim, moves[0], o);
      ConfirmedForever(Next(w, lim, moves[0]), lim, moves[1..], o);
    } else {
      assert OrderInv(w.table, BookedTo(w.table, o), w.orders[o]);
    }
  }

  /** In every run a reallocated order holds one group of neighbouring seats of the size
      it was placed with, worth together no more than what was paid. */
  lemma ReallocationIsFair(w: World, lim: Limits, moves: seq<Move>, o: OrderId)
    requires Fresh(w) && Possible(w, lim, moves, BetweenDeedAndRecord)
    requires o in Run(w, lim, moves, BetweenDeedAndRecord).orders
    ensures var w' := Run(w, lim, moves, BetweenDeedAndRecord);
            var s := w'.orders[o];
            if s.row.reallocated then exists run :: |run| == s.asked && Moved(w'.table, s.row, run)
            else |s.row.seats| == s.asked
  {
    var w' := Run(w, lim, moves, BetweenDeedAndRecord);
    FreshInv(w);
    RunKeepsInv(w, lim, moves);
    var s := w'.orders[o];
    if s.row.reallocated { ReallocatedIsMoved(w'.table, s.row, s.asked); }
  }

  lemma ReallocatedIsMoved(t: Table, row: Order, asked: nat)
    requires exists run :: ReallocatedTo(t, row, asked, run)
    ensures exists run :: |run| == asked && Moved(t, row, run)
  {
    var run :| ReallocatedTo(t, row, asked, run);
    RunAffordable(t, row.event, row.amount, run);
    assert Moved(t, row, run);
  }

  lemma FreshInv(w: World)
    requires Fresh(w)
    ensures Inv(w)
  {
    forall p ensures BookedTo(w.table, p) == {} {}
  }

  lemma RunAffordable(t: Table, event: int, amount: nat, run: seq<int>)
    requires run != [] && SideBySide(t, event, run, amount / |run|)
    ensures forall seat | seat in run :: Key(event, seat) in t
    ensures BestAvailable.PriceOf(t, event, run) <= amount
  {
    BestAvailable.PriceBounded(t, event, amount / |run|, run);
    QuotientTimes(amount, |run|);
  }

  lemma QuotientTimes(amount: nat, n: nat)
    requires n > 0
    ensures n * (amount / n) <= amount
  {
  }

  ghost predicate Moved(t: Table, row: Order, run: seq<int>) {
    && run != [] && row.seats == Inventory.Normalised(run)
    && (forall i | 0 <= i < |run| :: Key(row.event, run[i]) in t)
    && (forall i, j | 0 <= i < |run| && 0 <= j < |run| ::
          t[Key(row.event, run[i])].rowId == t[Key(row.event, run[j])].rowId
          && t[Key(row.event, run[j])].ordinal - t[Key(row.event, run[i])].ordinal == j - i)
    && BestAvailable.PriceOf(t, row.event, run) <= row.amount
  }

  // ---- The reconciler's two money checks ----

  ghost predicate SeatWithNoMoney(s: OrderState) {
    s.row.status in {CONFIRMED, TICKETED} && !exists h :: h in s.payments && s.payments[h].status == PayCaptured
  }

  ghost predicate MoneyWithNoSeat(s: OrderState) {
    (exists h :: h in s.payments && s.payments[h].status == PayCaptured)
    && s.row.status !in {CONFIRMED, TICKETED} && s.refundRows == []
  }

  /** The first check is always silent; the second is silent for every order that has
      come to an end, so it can only name one a saga or the reconciler still owns. */
  lemma MoneyChecks(w: World, lim: Limits, moves: seq<Move>, o: OrderId)
    requires Fresh(w) && Possible(w, lim, moves, BetweenDeedAndRecord)
    requires o in Run(w, lim, moves, BetweenDeedAndRecord).orders
    ensures var s := Run(w, lim, moves, BetweenDeedAndRecord).orders[o];
            !SeatWithNoMoney(s) && (MoneyWithNoSeat(s) ==> s.row.status in {AUTHORIZING, CONFIRMING})
  {
    var w' := Run(w, lim, moves, BetweenDeedAndRecord);
    FreshInv(w);
    RunKeepsInv(w, lim, moves);
    MoneyFollowsStatus(w'.table, BookedTo(w'.table, o), w'.orders[o]);
  }

  lemma MoneyFollowsStatus(t: Table, booked: set<Key>, s: OrderState)
    requires OrderInv(t, booked, s)
    ensures s.row.status in {CONFIRMED, TICKETED, COMPENSATED} ==> Paid(s)
    ensures s.row.status == PENDING ==> s.payments == map[]
    ensures s.row.status == COMPENSATED ==> s.refundRows != []
    ensures s.row.status == FAILED ==> Unpaid(s)
  {
  }
}
