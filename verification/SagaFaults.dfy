/** Two facts about money that hold whatever the crashes: an order is captured under one
    key, except around a reallocation, and a refund is asked for with the reference its
    run had read. */
module SagaFaults {
  import opened Sets
  import opened EventSeats
  import opened Saga
  import opened SagaRuns

  // ---- At most one captured key ----

  predicate CarriesOrder(pc: Pc) {
    pc.MarkAuthorizing? || pc.ExtendHold? || pc.InsertPayment? || pc.ChargeCard? || pc.RecordCharge? || pc.MarkConfirming?
    || pc.ReadFences? || pc.ConfirmHeld? || pc.SearchSeats? || pc.AcquireRun? || pc.ConfirmRun? || pc.ReleaseRun? || pc.RefundCard?
  }

  /** The saga has seen the money captured. */
  predicate PastPayment(pc: Pc) {
    pc.MarkConfirming? || SeatStage(pc) || pc.Reallocate?
  }

  ghost predicate PaidRow(s: OrderState) {
    s.placed in s.payments && s.payments[s.placed].status == PayCaptured
  }

  /** Every key the order has charged or will charge is the one it was placed with. */
  ghost predicate OneKey(s: OrderState) {
    && s.captured <= {s.placed} && s.payments.Keys <= {s.placed}
    && (CarriesOrder(s.pc) ==> s.pc.ord.hold == s.placed)
    && (PastPayment(s.pc) ==> PaidRow(s))
    && (!s.row.reallocated ==> s.row.hold == s.placed)
    && (s.row.reallocated ==>
          PaidRow(s) && (s.pc.Idle? || s.pc.ReadOrder? || s.pc.MarkConfirmed? || s.pc.MarkTicketed?)
          && (s.row.status == CONFIRMED || s.row.status == TICKETED || s.pc == MarkConfirmed))
  }

  ghost predicate OneKeyEach(w: World) {
    forall o | o in w.orders :: OneKey(w.orders[o])
  }

  lemma PaymentStatementOneKey(t: Table, now: Time, s: OrderState, c: Choice)
    requires OneKey(s) && PaymentStage(s.pc)
    ensures OneKey(PaymentStatement(t, now, s, c))
  {
  }

  lemma SeatStatementOneKey(t: Table, t': Table, now: Time, s: OrderState, lim: Limits, c: Choice)
    requires OneKey(s) && SeatStage(s.pc) && PcFits(s.pc)
    ensures OneKey(s.(pc := SeatStatement(t, t', now, s.pc, lim, c)))
  {
  }

  lemma ClosingStatementOneKey(s: OrderState)
    requires OneKey(s) && !PaymentStage(s.pc) && !SeatStage(s.pc)
    ensures OneKey(ClosingStatement(s))
  {
  }

  lemma StatementOneKey(t: Table, t': Table, now: Time, s: OrderState, lim: Limits, c: Choice)
    requires OneKey(s) && PcFits(s.pc)
    ensures OneKey(StateAfter(t, t', now, s, lim, c))
  {
    if PaymentStage(s.pc) { PaymentStatementOneKey(t, now, s, c); }
    else if SeatStage(s.pc) { SeatStatementOneKey(t, t', now, s, lim, c); }
    else { ClosingStatementOneKey(s); }
  }

  lemma StatementMoveOneKey(w: World, lim: Limits, o: OrderId, c: Choice)
    requires OneKeyEach(w) && Enabled(w, Statement(o, c))
    ensures OneKeyEach(Next(w, lim, Statement(o, c)))
  {
    StatementOneKey(w.table, TableAfter(w.table, w.now, o, w.orders[o].pc, lim, c), w.now, w.orders[o], lim, c);
  }

  lemma JumpOneKey(w: World, lim: Limits, m: Move)
    requires OneKeyEach(w) && Enabled(w, m) && Tolerated(w, m, BeforeReallocation) && !m.Statement?
    ensures OneKeyEach(Next(w, lim, m))
  {
  }

  lemma StepKeepsOneKey(w: World, lim: Limits, m: Move)
    requires OneKeyEach(w) && Enabled(w, m) && Tolerated(w, m, BeforeReallocation)
    ensures OneKeyEach(Next(w, lim, m))
  {
    if m.Statement? { StatementMoveOneKey(w, lim, m.o, m.choice); } else { JumpOneKey(w, lim, m); }
  }

  lemma {:induction false} RunKeepsOneKey(w: World, lim: Limits, moves: seq<Move>)
    requires OneKeyEach(w) && Possible(w, lim, moves, BeforeReallocation)
    ensures OneKeyEach(Run(w, lim, moves, BeforeReallocation))
    decreases moves
  {
    if moves != [] {
      StepKeepsOneKey(w, lim, moves[0]);
      RunKeepsOneKey(Next(w, lim, moves[0]), lim, moves[1..]);
    }
  }

  /** Any number of saga runs and reconciler passes, each cut off anywhere except
      between moving the order to other seats and writing down that it is confirmed:
      the provider never captures an order under two keys. */
  lemma AtMostOneCapture(w: World, lim: Limits, moves: seq<Move>, o: OrderId)
    requires Fresh(w) && Possible(w, lim, moves, BeforeReallocation)
    requires o in Run(w, lim, moves, BeforeReallocation).orders
    ensures |Run(w, lim, moves, BeforeReallocation).orders[o].captured| <= 1
  {
    RunKeepsOneKey(w, lim, moves);
    var s := Run(w, lim, moves, BeforeReallocation).orders[o];
    SubsetSmaller(s.captured, {s.placed});
  }

  // ---- The reference a refund is asked for with ----

  /** Whether the payment row a run would read carries the provider's reference. */
  predicate CarriesReference(s: OrderState) {
    s.row.hold in s.payments && s.payments[s.row.hold].reference
  }

  /** A run started at base refund calls: what it copied from the payment row, or will,
      carries a reference exactly when ref says so, and so do its refund calls. */
  ghost predicate Copies(s: OrderState, base: nat, ref: bool) {
    && (forall i | base <= i < |s.refundCalls| :: s.refundCalls[i].reference == ref)
    && match s.pc
       case ReadOrder => CarriesReference(s) == ref
       case MarkAuthorizing(ord) => CarriesReference(s) == ref && ord.hold == s.row.hold
       case ExtendHold(ord) => CarriesReference(s) == ref && ord.hold == s.row.hold
       case InsertPayment(ord) => CarriesReference(s) == ref && ord.hold == s.row.hold
       case ChargeCard(_, pay) => pay.reference == ref
       case RecordCharge(_, pay, _) => pay.reference == ref
       case MarkConfirming(_, pay) => pay.reference == ref
       case ReadFences(_, pay) => pay.reference == ref
       case ConfirmHeld(_, pay, _) => pay.reference == ref
       case SearchSeats(_, pay) => pay.reference == ref
       case AcquireRun(_, pay, _, _) => pay.reference == ref
       case ConfirmRun(_, pay, _, _, _, _) => pay.reference == ref
       case ReleaseRun(_, pay, _, _) => pay.reference == ref
       case RefundCard(_, pay) => pay.reference == ref
       case AskProvider(_) => false
       case ResolveCaptured(_) => false
       case ResolveFailed => false
       case _ => true
  }

  lemma PaymentKeepsCopies(t: Table, now: Time, s: OrderState, c: Choice, base: nat, ref: bool)
    requires Copies(s, base, ref) && PaymentStage(s.pc)
    ensures Copies(PaymentStatement(t, now, s, c), base, ref)
  {
  }

  lemma SeatKeepsCopies(t: Table, t': Table, now: Time, s: OrderState, lim: Limits, c: Choice, base: nat, ref: bool)
    requires Copies(s, base, ref) && PcFits(s.pc) && SeatStage(s.pc)
    ensures Copies(s.(pc := SeatStatement(t, t', now, s.pc, lim, c)), base, ref)
  {
  }

  lemma ClosingKeepsCopies(s: OrderState, base: nat, ref: bool)
    requires Copies(s, base, ref) && !PaymentStage(s.pc) && !SeatStage(s.pc)
    ensures Copies(ClosingStatement(s), base, ref)
  {
  }

  lemma StatementKeepsCopies(t: Table, t': Table, now: Time, s: OrderState, lim: Limits, c: Choice, base: nat,
                             ref: bool)
    requires Copies(s, base, ref) && PcFits(s.pc)
    ensures Copies(StateAfter(t, t', now, s, lim, c), base, ref)
  {
    if PaymentStage(s.pc) { PaymentKeepsCopies(t, now, s, c, base, ref); }
    else if SeatStage(s.pc) { SeatKeepsCopies(t, t', now, s, lim, c, base, ref); }
    else { ClosingKeepsCopies(s, base, ref); }
  }

  lemma MoveKeepsCopies(w: World, lim: Limits, m: Move, o: OrderId, base: nat, ref: bool)
    requires o in w.orders && Copies(w.orders[o], base, ref) && Enabled(w, m) && m != Start(o) && m != Reconcile(o)
    ensures o in Next(w, lim, m).orders && Copies(Next(w, lim, m).orders[o], base, ref)
  {
    if m.Statement? && m.o == o {
      StatementKeepsCopies(w.table, TableAfter(w.table, w.now, o, w.orders[o].pc, lim, m.choice), w.now, w.orders[o],
                           lim, m.choice, base, ref);
    }
  }

  lemma {:induction false} RunKeepsCopies(w: World, lim: Limits, moves: seq<Move>, crashes: Crashes, o: OrderId,
                                          base: nat, ref: bool)
    requires o in w.orders && Copies(w.orders[o], base, ref) && Possible(w, lim, moves, crashes)
    requires forall i | 0 <= i < |moves| :: moves[i] != Start(o) && moves[i] != Reconcile(o)
    ensures o in Run(w, lim, moves, crashes).orders && Copies(Run(w, lim, moves, crashes).orders[o], base, ref)
    decreases moves
  {
    if moves != [] {
      assert moves[0] != Start(o) && moves[0] != Reconcile(o);
      MoveKeepsCopies(w, lim, moves[0], o, base, ref);
      RunKeepsCopies(Next(w, lim, moves[0]), lim, moves[1..], crashes, o, base, ref);
    }
  }

  /** The saga writes the provider's reference into the payments table but not into its
      own copy of the row: a run asks for a refund with a reference exactly when the row
      it found had one, so the run that charges the card never does. */
  lemma RefundsCarryWhatWasRead(w: World, lim: Limits, moves: seq<Move>, crashes: Crashes, o: OrderId)
    requires o in w.orders && w.orders[o].pc == ReadOrder && Possible(w, lim, moves, crashes)
    requires forall i | 0 <= i < |moves| :: moves[i] != Start(o) && moves[i] != Reconcile(o)
    ensures o in Run(w, lim, moves, crashes).orders
    ensures forall i | |w.orders[o].refundCalls| <= i < |Run(w, lim, moves, crashes).orders[o].refundCalls| ::
              Run(w, lim, moves, crashes).orders[o].refundCalls[i].reference == CarriesReference(w.orders[o])
  {
    RunKeepsCopies(w, lim, moves, crashes, o, |w.orders[o].refundCalls|, CarriesReference(w.orders[o]));
  }
}
