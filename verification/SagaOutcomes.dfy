/** What decides where a saga goes: the table for the extension and for other seats, the
    card and the provider for the money. Each is followed to the saga's end through
    whatever the others do. */
module SagaOutcomes {
  import opened EventSeats
  import opened Payment
  import Inventory
  import opened Saga
  import opened SagaRuns
  import opened SagaProgress

  /** A move that is not the order's own leaves the order alone. */
  lemma OthersLeaveOrder(w: World, lim: Limits, m: Move, o: OrderId)
    requires Enabled(w, m) && o in w.orders && m != Start(o) && m != Reconcile(o) && m != Crash(o)
    requires Own(m, o) == 0
    ensures o in Next(w, lim, m).orders && Next(w, lim, m).orders[o] == w.orders[o]
  {
  }

  // ---- The extension before any money moves ----

  /** Until its hold is extended an order has asked for no money. */
  ghost predicate MoneyUntouched(s: OrderState) {
    s.payments == map[] && s.captured == {} && s.row.hold == s.placed
  }

  ghost predicate Opening(s: OrderState) {
    && (s.row.status == PENDING ==> MoneyUntouched(s) && (s.pc.Idle? || s.pc.ReadOrder? || s.pc.MarkAuthorizing?))
    && (s.pc.MarkAuthorizing? ==> s.row.status == PENDING && s.pc.ord == s.row)
    && (s.pc.ExtendHold? ==> s.row.status == AUTHORIZING && s.pc.ord == s.row.(status := PENDING) && MoneyUntouched(s))
  }

  lemma StatementOpening(t: Table, t': Table, now: Time, s: OrderState, lim: Limits, c: Choice)
    requires Opening(s) && PcFits(s.pc)
    ensures Opening(StateAfter(t, t', now, s, lim, c))
  {
    if PaymentStage(s.pc) { PaymentOpening(t, now, s, c); }
    else if SeatStage(s.pc) { SeatOpening(t, t', now, s, lim, c); }
  }

  lemma PaymentOpening(t: Table, now: Time, s: OrderState, c: Choice)
    requires Opening(s) && PaymentStage(s.pc)
    ensures Opening(PaymentStatement(t, now, s, c))
  {
  }

  lemma SeatOpening(t: Table, t': Table, now: Time, s: OrderState, lim: Limits, c: Choice)
    requires Opening(s) && SeatStage(s.pc) && PcFits(s.pc)
    ensures Opening(s.(pc := SeatStatement(t, t', now, s.pc, lim, c)))
  {
  }

  ghost predicate AllOpening(w: World) {
    forall o | o in w.orders :: Opening(w.orders[o])
  }

  lemma StepOpening(w: World, lim: Limits, m: Move)
    requires AllOpening(w) && Enabled(w, m)
    ensures AllOpening(Next(w, lim, m))
  {
    if m.Statement? {
      var s := w.orders[m.o];
      StatementOpening(w.table, TableAfter(w.table, w.now, m.o, s.pc, lim, m.choice), w.now, s, lim, m.choice);
    }
  }

  lemma {:induction false} RunOpening(w: World, lim: Limits, moves: seq<Move>, crashes: Crashes)
    requires AllOpening(w) && Possible(w, lim, moves, crashes)
    ensures AllOpening(Run(w, lim, moves, crashes))
    decreases moves
  {
    if moves != [] {
      StepOpening(w, lim, moves[0]);
      RunOpening(Next(w, lim, moves[0]), lim, moves[1..], crashes);
    }
  }

  /** The extension fell short: nothing is charged, and the order fails. */
  ghost predicate Lapsed(s: OrderState) {
    && MoneyUntouched(s)
    && ((s.pc == Fail && s.row.status == AUTHORIZING) || (s.pc == Idle && s.row.status == FAILED))
  }

  lemma {:induction false} LapsedStays(w: World, lim: Limits, moves: seq<Move>, crashes: Crashes, o: OrderId)
    requires o in w.orders && Lapsed(w.orders[o]) && Possible(w, lim, moves, crashes) && LeftToItself(moves, o)
    ensures o in Run(w, lim, moves, crashes).orders
    ensures var s := Run(w, lim, moves, crashes).orders[o];
            Lapsed(s) && (s.pc == Idle <==> w.orders[o].pc == Idle || OwnStatements(moves, o) > 0)
    decreases moves
  {
    if moves != [] {
      assert moves[0] != Start(o) && moves[0] != Reconcile(o) && moves[0] != Crash(o);
      if Own(moves[0], o) == 0 { OthersLeaveOrder(w, lim, moves[0], o); }
      LapsedStays(Next(w, lim, moves[0]), lim, moves[1..], crashes, o);
    }
  }

  /** The payment row is there, or will be after the next statement. */
  ghost predicate Paying(s: OrderState) {
    s.placed in s.payments || (s.pc.InsertPayment? && s.pc.ord.hold == s.placed)
  }

  lemma StatementPaying(t: Table, t': Table, now: Time, s: OrderState, lim: Limits, c: Choice)
    requires Paying(s) && PcFits(s.pc)
    ensures var s' := StateAfter(t, t', now, s, lim, c); s'.placed == s.placed && s'.placed in s'.payments
  {
  }

  lemma {:induction false} PayingStays(w: World, lim: Limits, moves: seq<Move>, crashes: Crashes, o: OrderId)
    requires o in w.orders && Paying(w.orders[o]) && Possible(w, lim, moves, crashes) && LeftToItself(moves, o)
    ensures o in Run(w, lim, moves, crashes).orders
    ensures var s := Run(w, lim, moves, crashes).orders[o];
            Paying(s) && s.placed == w.orders[o].placed && (OwnStatements(moves, o) > 0 ==> s.placed in s.payments)
    decreases moves
  {
    if moves != [] {
      var w1 := Next(w, lim, moves[0]);
      assert moves[0] != Start(o) && moves[0] != Reconcile(o) && moves[0] != Crash(o);
      if Own(moves[0], o) == 0 {
        OthersLeaveOrder(w, lim, moves[0], o);
      } else {
        var s, c := w.orders[o], moves[0].choice;
        StatementPaying(w.table, TableAfter(w.table, w.now, o, s.pc, lim, c), w.now, s, lim, c);
      }
      PayingStays(w1, lim, moves[1..], crashes, o);
      if w1.orders[o].placed in w1.orders[o].payments { PaymentRowStays(w1, lim, moves[1..], crashes, o); }
    }
  }

  lemma StatementKeepsPaymentRow(t: Table, t': Table, now: Time, s: OrderState, lim: Limits, c: Choice)
    requires s.placed in s.payments && PcFits(s.pc)
    ensures var s' := StateAfter(t, t', now, s, lim, c); s'.placed == s.placed && s'.placed in s'.payments
  {
  }

  lemma {:induction false} PaymentRowStays(w: World, lim: Limits, moves: seq<Move>, crashes: Crashes, o: OrderId)
    requires o in w.orders && w.orders[o].placed in w.orders[o].payments
    requires Possible(w, lim, moves, crashes) && LeftToItself(moves, o)
    ensures o in Run(w, lim, moves, crashes).orders
    ensures var s := Run(w, lim, moves, crashes).orders[o]; s.placed in s.payments
    decreases moves
  {
    if moves != [] {
      assert moves[0] != Start(o) && moves[0] != Reconcile(o) && moves[0] != Crash(o);
      if Own(moves[0], o) == 0 {
        OthersLeaveOrder(w, lim, moves[0], o);
      } else {
        var s, c := w.orders[o], moves[0].choice;
        StatementKeepsPaymentRow(w.table, TableAfter(w.table, w.now, o, s.pc, lim, c), w.now, s, lim, c);
      }
      PaymentRowStays(Next(w, lim, moves[0]), lim, moves[1..], crashes, o);
    }
  }

  /** The extension, in any run whatever crashes: if every seat of the order is on its hold
      and unexpired at that moment, all of them stay confirmable for EXTEND_SECONDS and the
      saga goes on to the payment; and if one is not, nothing is ever charged by this saga
      and its next statement, the last, fails the order. */
  lemma ExtensionDecides(w: World, lim: Limits, before: seq<Move>, c: Choice, moves: seq<Move>, crashes: Crashes,
                         o: OrderId)
    requires Fresh(w) && Possible(w, lim, before, crashes)
    requires var w1 := Run(w, lim, before, crashes);
             o in w1.orders && w1.orders[o].pc.ExtendHold? && LeftToItself(moves, o)
             && Possible(Next(w1, lim, Statement(o, c)), lim, moves, crashes)
    ensures var w1 := Run(w, lim, before, crashes);
            var w2 := Next(w1, lim, Statement(o, c));
            var w3 := Run(w2, lim, moves, crashes);
            var s1 := w1.orders[o];
            && o in w3.orders && s1.payments == map[] && s1.captured == {}
            && var s := w3.orders[o];
            if HoldAlive(w1.table, w1.now, s1.row) then
              && (forall at | at < w1.now + EXTEND_SECONDS :: HoldAlive(w2.table, at, s1.row))
              && (OwnStatements(moves, o) > 0 ==> s1.placed in s.payments)
            else
              && s.payments == map[] && s.captured == {}
              && (if OwnStatements(moves, o) > 0 then s.pc == Idle && s.row.status == FAILED else s.pc != Idle)
  {
    var w1 := Run(w, lim, before, crashes);
    var s1, w2 := w1.orders[o], Next(w1, lim, Statement(o, c));
    RunOpening(w, lim, before, crashes);
    ExtendsIff(w1.table, w1.now, s1.pc.ord);
    if HoldAlive(w1.table, w1.now, s1.row) {
      ExtendedLives(w1.table, w1.now, s1.row);
      assert w2.table == Extended(w1.table, s1.row.event, Inventory.Normalised(s1.row.seats), s1.row.hold, w1.now,
                                  EXTEND_SECONDS);
      PayingStays(w2, lim, moves, crashes, o);
    } else {
      assert !HoldAlive(w1.table, w1.now, s1.pc.ord);
      LapsedStays(w2, lim, moves, crashes, o);
    }
  }

  lemma ExtendedLives(t: Table, now: Time, row: Order)
    requires HoldAlive(t, now, row)
    ensures var t' := Extended(t, row.event, Inventory.Normalised(row.seats), row.hold, now, EXTEND_SECONDS);
            forall at | at < now + EXTEND_SECONDS :: HoldAlive(t', at, row)
  {
    Inventory.NormalisedSound(row.seats);
  }

  // ---- The money ----

  /** What a saga knows of an order's charge. */
  datatype Verdict = Got | Refused | Unsure

  function VerdictOf(c: ChargeStatus): Verdict {
    match c case Captured => Got case Declined => Refused case Unknown => Unsure
  }

  /** The saga has been told the verdict, or is about to write it down, or has acted on it. */
  ghost predicate Follows(s: OrderState, v: Verdict) {
    && s.placed in s.payments
    && var status := s.payments[s.placed].status;
    match v
    case Got =>
      && s.placed in s.captured
      && (s.pc.AskProvider? || s.pc.ResolveCaptured? || (s.pc.RecordCharge? && s.pc.charge.status == Captured)
          || (status == PayCaptured && (s.pc == Idle ==> s.row.status in {TICKETED, COMPENSATED})
              && (s.pc == ReadOrder ==> s.row.status == AUTHORIZING)))
    case Refused =>
      && s.captured == {}
      && (s.pc.AskProvider? || s.pc == ResolveFailed || (s.pc.RecordCharge? && s.pc.charge.status == Declined)
          || (status == PayFailed && (s.pc == Fail || (s.pc == Idle && s.row.status == FAILED))))
    case Unsure =>
      || (s.pc.RecordCharge? && s.pc.charge.status == Unknown)
      || (status == PayUnknown && s.pc == Idle && s.row.status == AUTHORIZING)
  }

  lemma PaymentFollows(t: Table, now: Time, booked: set<Key>, s: OrderState, c: Choice, v: Verdict)
    requires OrderInv(t, booked, s) && PaymentStage(s.pc) && s.pc != Idle && Follows(s, v)
    ensures Follows(PaymentStatement(t, now, s, c), v)
  {
  }

  lemma SeatFollows(t: Table, t': Table, now: Time, s: OrderState, lim: Limits, c: Choice, v: Verdict)
    requires PcFits(s.pc) && SeatStage(s.pc) && Follows(s, v)
    ensures Follows(s.(pc := SeatStatement(t, t', now, s.pc, lim, c)), v)
  {
  }

  lemma ClosingFollows(s: OrderState, v: Verdict)
    requires !PaymentStage(s.pc) && !SeatStage(s.pc) && Follows(s, v)
    ensures Follows(ClosingStatement(s), v)
  {
  }

  lemma MoveFollows(w: World, lim: Limits, m: Move, o: OrderId, v: Verdict)
    requires Inv(w) && Enabled(w, m) && o in w.orders && m != Start(o) && m != Reconcile(o) && m != Crash(o)
    requires Follows(w.orders[o], v)
    ensures o in Next(w, lim, m).orders && Follows(Next(w, lim, m).orders[o], v)
  {
    if Own(m, o) == 0 {
      OthersLeaveOrder(w, lim, m, o);
    } else {
      var s, c := w.orders[o], m.choice;
      if PaymentStage(s.pc) { PaymentFollows(w.table, w.now, BookedTo(w.table, o), s, c, v); }
      else if SeatStage(s.pc) { SeatFollows(w.table, TableAfter(w.table, w.now, o, s.pc, lim, c), w.now, s, lim, c, v); }
      else { ClosingFollows(s, v); }
    }
  }

  lemma {:induction false} RunFollows(w: World, lim: Limits, moves: seq<Move>, o: OrderId, v: Verdict)
    requires Inv(w) && Possible(w, lim, moves, BetweenDeedAndRecord) && o in w.orders && LeftToItself(moves, o)
    requires Follows(w.orders[o], v)
    ensures var w' := Run(w, lim, moves, BetweenDeedAndRecord); o in w'.orders && Follows(w'.orders[o], v)
    decreases moves
  {
    if moves != [] {
      assert moves[0] != Start(o) && moves[0] != Reconcile(o) && moves[0] != Crash(o);
      MoveFollows(w, lim, moves[0], o, v);
      StepKeepsInv(w, lim, moves[0]);
      RunFollows(Next(w, lim, moves[0]), lim, moves[1..], o, v);
    }
  }

  /** Where a saga that stops leaves an order, by what became of the charge. */
  ghost predicate StopsAs(s: OrderState, v: Verdict) {
    s.pc == Idle ==>
      && s.placed in s.payments
      && var status := s.payments[s.placed].status;
      match v
      case Got => s.placed in s.captured && status == PayCaptured && s.row.status in {TICKETED, COMPENSATED}
      case Refused => s.captured == {} && status == PayFailed && s.row.status == FAILED
      case Unsure => status == PayUnknown && s.row.status == AUTHORIZING
  }

  /** What the charge's own statement leads to. */
  lemma ChargeFollows(w: World, lim: Limits, c: Choice, o: OrderId)
    requires Inv(w) && o in w.orders && w.orders[o].pc.ChargeCard?
    ensures var s1 := w.orders[o];
            Follows(Next(w, lim, Statement(o, c)).orders[o],
                    VerdictOf(Charged(s1.placed in s1.captured, c.dice).status))
  {
    assert OrderInv(w.table, BookedTo(w.table, o), w.orders[o]);
  }

  /** The charge, in any run: once the provider has captured the money the order can only
      stop ticketed or compensated, once it has declined the order can only stop failed,
      and an answer that leaves it open is written down and waited with. */
  lemma ChargeDecides(w: World, lim: Limits, before: seq<Move>, c: Choice, moves: seq<Move>, o: OrderId)
    requires Fresh(w) && Possible(w, lim, before, BetweenDeedAndRecord)
    requires var w1 := Run(w, lim, before, BetweenDeedAndRecord);
             o in w1.orders && w1.orders[o].pc.ChargeCard? && LeftToItself(moves, o)
             && Possible(Next(w1, lim, Statement(o, c)), lim, moves, BetweenDeedAndRecord)
    ensures var w1 := Run(w, lim, before, BetweenDeedAndRecord);
            var w2 := Run(Next(w1, lim, Statement(o, c)), lim, moves, BetweenDeedAndRecord);
            var s1 := w1.orders[o];
            o in w2.orders && StopsAs(w2.orders[o], VerdictOf(Charged(s1.placed in s1.captured, c.dice).status))
  {
    var w1 := Run(w, lim, before, BetweenDeedAndRecord);
    FreshInv(w);
    RunKeepsInv(w, lim, before);
    StepKeepsInv(w1, lim, Statement(o, c));
    var s1 := w1.orders[o];
    ChargeFollows(w1, lim, c, o);
    RunFollows(Next(w1, lim, Statement(o, c)), lim, moves, o, VerdictOf(Charged(s1.placed in s1.captured, c.dice).status));
  }

  /** The reconciler, in any run: an order whose payment it takes up can only stop ticketed
      or compensated when the provider has captured the money, and failed when it has not. */
  lemma ReconcilerDecides(w: World, lim: Limits, before: seq<Move>, moves: seq<Move>, o: OrderId)
    requires Fresh(w) && Possible(w, lim, before, BetweenDeedAndRecord)
    requires var w1 := Run(w, lim, before, BetweenDeedAndRecord);
             Enabled(w1, Reconcile(o)) && LeftToItself(moves, o)
             && Possible(Next(w1, lim, Reconcile(o)), lim, moves, BetweenDeedAndRecord)
    ensures var w1 := Run(w, lim, before, BetweenDeedAndRecord);
            var w2 := Run(Next(w1, lim, Reconcile(o)), lim, moves, BetweenDeedAndRecord);
            var s1 := w1.orders[o];
            o in w2.orders && StopsAs(w2.orders[o], if s1.placed in s1.captured then Got else Refused)
  {
    var w1 := Run(w, lim, before, BetweenDeedAndRecord);
    FreshInv(w);
    RunKeepsInv(w, lim, before);
    StepKeepsInv(w1, lim, Reconcile(o));
    var s1 := w1.orders[o];
    assert OrderInv(w1.table, BookedTo(w1.table, o), s1);
    RunFollows(Next(w1, lim, Reconcile(o)), lim, moves, o, if s1.placed in s1.captured then Got else Refused);
  }
}
