/** Every saga comes to a stop: after at most twenty statements of its own, whatever the
    others do in between, and with its order settled or its payment unknown. */
module SagaProgress {
  import opened EventSeats
  import opened Payment
  import BestAvailable
  import opened Saga
  import opened SagaRuns
  import opened SagaPaths

  /** How many statements a saga can still take. */
  function Left(pc: Pc): (n: nat)
    ensures n <= 20
  {
    match pc
    case Idle => 0
    case MarkCompensated | MarkTicketed | Fail => 1
    case RecordRefund(_) | MarkConfirmed | ResolveFailed => 2
    case RefundCard(_, _) | Reallocate(_, _, _) => 3
    case ReleaseRun(_, _, _, _) => 4
    case ConfirmRun(_, _, _, _, _, _) => 5
    case AcquireRun(_, _, _, attempt) => if attempt < BestAvailable.MAX_ATTEMPTS then 8 - attempt else 5
    case SearchSeats(_, _) => 9
    case ConfirmHeld(_, _, _) => 10
    case ReadFences(_, _) => 11
    case MarkConfirming(_, _) => 12
    case RecordCharge(_, _, _) => 13
    case ChargeCard(_, _) => 14
    case InsertPayment(_) => 15
    case ExtendHold(_) => 16
    case MarkAuthorizing(_) => 17
    case ReadOrder => 18
    case ResolveCaptured(_) => 19
    case AskProvider(_) => 20
  }

  lemma PaymentLowers(t: Table, now: Time, s: OrderState, c: Choice)
    requires PaymentStage(s.pc) && s.pc != Idle
    ensures Left(PaymentStatement(t, now, s, c).pc) < Left(s.pc)
  {
  }

  lemma SeatLowers(t: Table, t': Table, now: Time, pc: Pc, lim: Limits, c: Choice)
    requires SeatStage(pc) && PcFits(pc)
    ensures Left(SeatStatement(t, t', now, pc, lim, c)) < Left(pc)
  {
  }

  lemma ClosingLowers(s: OrderState)
    requires !PaymentStage(s.pc) && !SeatStage(s.pc)
    ensures Left(ClosingStatement(s).pc) < Left(s.pc)
  {
  }

  lemma StatementLowers(t: Table, t': Table, now: Time, s: OrderState, lim: Limits, c: Choice)
    requires PcFits(s.pc) && s.pc != Idle
    ensures Left(StateAfter(t, t', now, s, lim, c).pc) < Left(s.pc)
  {
    if PaymentStage(s.pc) { PaymentLowers(t, now, s, c); }
    else if SeatStage(s.pc) { SeatLowers(t, t', now, s.pc, lim, c); }
    else { ClosingLowers(s); }
  }

  /** The order has got as far as it can, or nobody knows yet whether it is paid for. */
  ghost predicate Settled(s: OrderState) {
    s.row.status in {CONFIRMED, TICKETED, COMPENSATED, FAILED}
    || (s.placed in s.payments && s.payments[s.placed].status == PayUnknown)
  }

  lemma PaymentStops(t: Table, now: Time, booked: set<Key>, s: OrderState, c: Choice)
    requires PaymentStage(s.pc) && s.pc != Idle && PaymentInv(booked, s)
    ensures PaymentStatement(t, now, s, c).pc == Idle ==> Settled(PaymentStatement(t, now, s, c))
  {
  }

  /** A saga that stops has settled. */
  lemma StatementStops(t: Table, t': Table, now: Time, s: OrderState, lim: Limits, c: Choice, booked: set<Key>)
    requires OrderInv(t, booked, s) && s.pc != Idle
    ensures StateAfter(t, t', now, s, lim, c).pc == Idle ==> Settled(StateAfter(t, t', now, s, lim, c))
  {
    if PaymentStage(s.pc) { PaymentStops(t, now, booked, s, c); }
  }

  // ---- Whole runs ----

  function Own(m: Move, o: OrderId): nat {
    if m.Statement? && m.o == o then 1 else 0
  }

  /** The statements of the order's own saga in a run. */
  function OwnStatements(moves: seq<Move>, o: OrderId): nat {
    if moves == [] then 0 else Own(moves[0], o) + OwnStatements(moves[1..], o)
  }

  /** Nobody starts, resolves or kills the order's saga again. */
  ghost predicate LeftToItself(moves: seq<Move>, o: OrderId) {
    forall i | 0 <= i < |moves| :: moves[i] != Start(o) && moves[i] != Reconcile(o) && moves[i] != Crash(o)
  }

  ghost predicate StopsSettled(s: OrderState) {
    s.pc == Idle ==> Settled(s)
  }

  lemma MoveProgresses(w: World, lim: Limits, m: Move, o: OrderId)
    requires Inv(w) && Enabled(w, m) && o in w.orders && m != Start(o) && m != Reconcile(o) && m != Crash(o)
    requires StopsSettled(w.orders[o])
    ensures var w' := Next(w, lim, m);
            && o in w'.orders && StopsSettled(w'.orders[o])
            && Own(m, o) + Left(w'.orders[o].pc) <= Left(w.orders[o].pc)
  {
    if m.Statement? && m.o == o {
      var s, t' := w.orders[o], TableAfter(w.table, w.now, o, w.orders[o].pc, lim, m.choice);
      StatementLowers(w.table, t', w.now, s, lim, m.choice);
      StatementStops(w.table, t', w.now, s, lim, m.choice, BookedTo(w.table, o));
    }
  }

  lemma {:induction false} RunProgresses(w: World, lim: Limits, moves: seq<Move>, o: OrderId)
    requires Inv(w) && Possible(w, lim, moves, BetweenDeedAndRecord) && o in w.orders && LeftToItself(moves, o)
    requires StopsSettled(w.orders[o])
    ensures var w' := Run(w, lim, moves, BetweenDeedAndRecord);
            && o in w'.orders && StopsSettled(w'.orders[o])
            && OwnStatements(moves, o) + Left(w'.orders[o].pc) <= Left(w.orders[o].pc)
    decreases moves
  {
    if moves != [] {
      assert moves[0] != Start(o) && moves[0] != Reconcile(o) && moves[0] != Crash(o);
      MoveProgresses(w, lim, moves[0], o);
      StepKeepsInv(w, lim, moves[0]);
      RunProgresses(Next(w, lim, moves[0]), lim, moves[1..], o);
    }
  }

  /** A saga that has not stopped can always take its next statement. */
  lemma CanGoOn(w: World, o: OrderId) returns (c: Choice)
    requires Inv(w) && UniqueOrdinals(w.table) && o in w.orders && w.orders[o].pc != Idle
    ensures Enabled(w, Statement(o, c))
  {
    var s := w.orders[o];
    var cs := [];
    if s.pc.SearchSeats? { cs := CandidatesExist(w.table, s.pc.ord.event, MaxPrice(s.pc.ord)); }
    c := Choice(Dice(false, false, false), false, s.placed + 1, cs);
  }

  /** From any moment of any run, under any interleaving: a running saga takes at most
      twenty more statements, each lowering what is left; until it stops it can go on;
      and when it stops its order is settled or its payment unknown. */
  lemma EverySagaSettles(w: World, lim: Limits, before: seq<Move>, moves: seq<Move>, o: OrderId)
    requires Fresh(w) && UniqueOrdinals(w.table) && Possible(w, lim, before, BetweenDeedAndRecord)
    requires var w1 := Run(w, lim, before, BetweenDeedAndRecord);
             o in w1.orders && w1.orders[o].pc != Idle && Possible(w1, lim, moves, BetweenDeedAndRecord)
    requires LeftToItself(moves, o)
    ensures var w1 := Run(w, lim, before, BetweenDeedAndRecord);
            var w2 := Run(w1, lim, moves, BetweenDeedAndRecord);
            && o in w2.orders
            && OwnStatements(moves, o) + Left(w2.orders[o].pc) <= Left(w1.orders[o].pc) <= 20
            && (if w2.orders[o].pc == Idle then Settled(w2.orders[o]) else exists c :: Enabled(w2, Statement(o, c)))
  {
    var w1 := Run(w, lim, before, BetweenDeedAndRecord);
    var w2 := Run(w1, lim, moves, BetweenDeedAndRecord);
    FreshInv(w);
    RunKeepsInv(w, lim, before);
    RunKeepsOrdinals(w, lim, before, BetweenDeedAndRecord);
    RunKeepsInv(w1, lim, moves);
    RunKeepsOrdinals(w1, lim, moves, BetweenDeedAndRecord);
    RunProgresses(w1, lim, moves, o);
    if w2.orders[o].pc != Idle { var c := CanGoOn(w2, o); }
  }
}
