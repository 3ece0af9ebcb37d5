/** What decides between an order's own seats, other seats and a refund: the table at the
    confirms and at each attempt to hold others, whatever the others do in between. */
module SagaSeats {
  import opened Wrappers
  import opened EventSeats
  import BestAvailable
  import Inventory
  import opened Saga
  import opened SagaRuns
  import opened SagaProgress
  import opened SagaFaults
  import opened SagaOutcomes

  /** How a saga whose money is captured can end. */
  datatype End = Keeps | Moves(hold: HoldId, seats: seq<int>) | GivesBack

  /** The saga is on its way to this end, or there. */
  ghost predicate Heads(s: OrderState, e: End) {
    match e
    case Keeps =>
      !s.row.reallocated && (s.pc == MarkConfirmed || s.pc == MarkTicketed || (s.pc == Idle && s.row.status == TICKETED))
    case Moves(hold, seats) =>
      || (s.pc.Reallocate? && s.pc.hold == hold && s.pc.seats == seats)
      || (s.row.reallocated && s.row.hold == hold && s.row.seats == seats
          && (s.pc == MarkConfirmed || s.pc == MarkTicketed || (s.pc == Idle && s.row.status == TICKETED)))
    case GivesBack =>
      !s.row.reallocated && (s.pc.ReleaseRun? || Refunds(s))
  }

  ghost predicate Refunds(s: OrderState) {
    s.pc.RefundCard? || s.pc.RecordRefund? || s.pc == MarkCompensated || (s.pc == Idle && s.row.status == COMPENSATED)
  }

  lemma StatementHeads(t: Table, t': Table, now: Time, s: OrderState, lim: Limits, c: Choice, e: End)
    requires Heads(s, e) && PcFits(s.pc) && s.pc != Idle
    ensures Heads(StateAfter(t, t', now, s, lim, c), e)
  {
  }

  lemma {:induction false} RunHeads(w: World, lim: Limits, moves: seq<Move>, crashes: Crashes, o: OrderId, e: End)
    requires o in w.orders && Heads(w.orders[o], e) && Possible(w, lim, moves, crashes) && LeftToItself(moves, o)
    ensures o in Run(w, lim, moves, crashes).orders && Heads(Run(w, lim, moves, crashes).orders[o], e)
    decreases moves
  {
    if moves != [] {
      assert moves[0] != Start(o) && moves[0] != Reconcile(o) && moves[0] != Crash(o);
      if Own(moves[0], o) == 0 {
        OthersLeaveOrder(w, lim, moves[0], o);
      } else {
        var s, c := w.orders[o], moves[0].choice;
        StatementHeads(w.table, TableAfter(w.table, w.now, o, s.pc, lim, c), w.now, s, lim, c, e);
      }
      RunHeads(Next(w, lim, moves[0]), lim, moves[1..], crashes, o, e);
    }
  }

  /** The seats a saga is about to confirm, its own or others. */
  ghost predicate CanBook(w: World, pc: Pc)
    requires PcFits(pc) && (pc.ConfirmHeld? || pc.ConfirmRun?)
  {
    if pc.ConfirmHeld? then Inventory.AllConfirmable(w.table, pc.ord.event, pc.ord.seats, pc.fences, pc.ord.hold, w.now)
    else Inventory.AllConfirmable(w.table, pc.ord.event, pc.seats, pc.fences, pc.hold, w.now)
  }

  lemma ConfirmHeads(w: World, lim: Limits, c: Choice, moves: seq<Move>, crashes: Crashes, o: OrderId)
    requires o in w.orders && !w.orders[o].row.reallocated && Enabled(w, Statement(o, c))
    requires w.orders[o].pc.ConfirmHeld? && CanBook(w, w.orders[o].pc)
    requires Possible(Next(w, lim, Statement(o, c)), lim, moves, crashes) && LeftToItself(moves, o)
    ensures var w' := Run(Next(w, lim, Statement(o, c)), lim, moves, crashes);
            o in w'.orders && Heads(w'.orders[o], Keeps)
  {
    var ord := w.orders[o].pc.ord;
    ConfirmAllOrNothing(w.table, ord.event, ord.seats, w.orders[o].pc.fences, ord.hold, w.now);
    RunHeads(Next(w, lim, Statement(o, c)), lim, moves, crashes, o, Keeps);
  }

  /** None of these seats is on the hold any more. */
  ghost predicate GivenBack(t: Table, event: int, seats: seq<int>, hold: HoldId) {
    forall k | k in t && Listed(k, event, seats) :: !Releasable(t[k], hold)
  }

  /** Where the confirm of other seats leads. */
  lemma SecondConfirmLeads(w: World, lim: Limits, c: Choice, o: OrderId)
    requires o in w.orders && !w.orders[o].row.reallocated && Enabled(w, Statement(o, c)) && w.orders[o].pc.ConfirmRun?
    ensures var pc, s1 := w.orders[o].pc, Next(w, lim, Statement(o, c)).orders[o];
            && s1 == w.orders[o].(pc := s1.pc)
            && s1.pc == if CanBook(w, pc) then Reallocate(pc.run, pc.hold, pc.seats)
                        else ReleaseRun(pc.ord, pc.pay, pc.hold, pc.seats)
  {
    var pc := w.orders[o].pc;
    ConfirmAllOrNothing(w.table, pc.ord.event, pc.seats, pc.fences, pc.hold, w.now);
  }

  lemma SecondConfirmHeads(w: World, lim: Limits, c: Choice, moves: seq<Move>, crashes: Crashes, o: OrderId)
    requires o in w.orders && !w.orders[o].row.reallocated && Enabled(w, Statement(o, c)) && w.orders[o].pc.ConfirmRun?
    requires Possible(Next(w, lim, Statement(o, c)), lim, moves, crashes) && LeftToItself(moves, o)
    ensures var pc, w' := w.orders[o].pc, Run(Next(w, lim, Statement(o, c)), lim, moves, crashes);
            && o in w'.orders
            && Heads(w'.orders[o], if CanBook(w, pc) then Moves(pc.hold, pc.seats) else GivesBack)
            && forall c' | !CanBook(w, pc) && OwnStatements(moves, o) == 0 && Enabled(w', Statement(o, c')) ::
              GivenBack(Next(w', lim, Statement(o, c')).table, pc.ord.event, pc.seats, pc.hold)
  {
    var pc, w1 := w.orders[o].pc, Next(w, lim, Statement(o, c));
    SecondConfirmLeads(w, lim, c, o);
    RunHeads(w1, lim, moves, crashes, o, if CanBook(w, pc) then Moves(pc.hold, pc.seats) else GivesBack);
    if !CanBook(w, pc) && OwnStatements(moves, o) == 0 { NoStatementNoChange(w1, lim, moves, crashes, o); }
  }

  lemma {:induction false} NoStatementNoChange(w: World, lim: Limits, moves: seq<Move>, crashes: Crashes, o: OrderId)
    requires o in w.orders && Possible(w, lim, moves, crashes) && LeftToItself(moves, o) && OwnStatements(moves, o) == 0
    ensures o in Run(w, lim, moves, crashes).orders && Run(w, lim, moves, crashes).orders[o] == w.orders[o]
    decreases moves
  {
    if moves != [] {
      assert moves[0] != Start(o) && moves[0] != Reconcile(o) && moves[0] != Crash(o);
      OthersLeaveOrder(w, lim, moves[0], o);
      NoStatementNoChange(Next(w, lim, moves[0]), lim, moves[1..], crashes, o);
    }
  }

  // ---- Other seats first, the refund last ----

  /** The contention filter lets the run through and every row can be held. */
  ghost predicate CanHold(w: World, event: int, run: seq<int>, c: Choice) {
    !c.blocked && forall seat | seat in run :: Key(event, seat) in w.table && Holdable(w.table[Key(event, seat)], w.now)
  }

  lemma AcquiresIff(w: World, ord: Order, run: seq<int>, c: Choice)
    ensures Acquires(w.table, w.now, ord, run, c) <==> CanHold(w, ord.event, run, c)
  {
    Inventory.NormalisedSound(run);
    AcquireAllOrNothing(w.table, ord.event, Inventory.Normalised(run), w.now);
  }

  /** Somewhere in this stretch the saga asked for the run and it could not be had. */
  ghost predicate TurnedAway(w: World, lim: Limits, moves: seq<Move>, crashes: Crashes, o: OrderId, run: seq<int>)
    requires o in w.orders && Possible(w, lim, moves, crashes)
    decreases moves
  {
    moves != [] && (
      || (Own(moves[0], o) == 1 && w.orders[o].pc.AcquireRun? && w.orders[o].pc.runs[w.orders[o].pc.attempt] == run
          && !CanHold(w, w.orders[o].pc.ord.event, run, moves[0].choice))
      || TurnedAway(Next(w, lim, moves[0]), lim, moves[1..], crashes, o, run))
  }

  /** Somewhere in this stretch seats the saga had got hold of could not be confirmed. */
  ghost predicate LostAgain(w: World, lim: Limits, moves: seq<Move>, crashes: Crashes, o: OrderId)
    requires o in w.orders && Possible(w, lim, moves, crashes)
    decreases moves
  {
    moves != [] && (
      || (Own(moves[0], o) == 1 && w.orders[o].pc.ConfirmRun? && !CanBook(w, w.orders[o].pc))
      || LostAgain(Next(w, lim, moves[0]), lim, moves[1..], crashes, o))
  }

  lemma {:induction false} MovesUnlessLost(w: World, lim: Limits, moves: seq<Move>, crashes: Crashes, o: OrderId)
    requires o in w.orders && !w.orders[o].row.reallocated && w.orders[o].pc.ConfirmRun?
    requires Possible(w, lim, moves, crashes) && LeftToItself(moves, o)
    ensures o in Run(w, lim, moves, crashes).orders
    ensures Refunds(Run(w, lim, moves, crashes).orders[o]) ==> LostAgain(w, lim, moves, crashes, o)
    decreases moves
  {
    if moves != [] {
      var pc, w1 := w.orders[o].pc, Next(w, lim, moves[0]);
      assert moves[0] != Start(o) && moves[0] != Reconcile(o) && moves[0] != Crash(o);
      if Own(moves[0], o) == 0 {
        OthersLeaveOrder(w, lim, moves[0], o);
        MovesUnlessLost(w1, lim, moves[1..], crashes, o);
      } else {
        SecondConfirmHeads(w, lim, moves[0].choice, moves[1..], crashes, o);
      }
    }
  }

  /** Where one attempt to hold a run leads. */
  lemma AttemptLeads(w: World, lim: Limits, c: Choice, o: OrderId, ord: Order, pay: PaymentRow, runs: seq<seq<int>>,
                     k: nat)
    requires Enabled(w, Statement(o, c)) && w.orders[o].pc == AcquireRun(ord, pay, runs, k)
    ensures var s1 := Next(w, lim, Statement(o, c)).orders[o];
            if CanHold(w, ord.event, runs[k], c) then s1 == w.orders[o].(pc := s1.pc) && s1.pc.ConfirmRun?
            else if k + 1 < BestAvailable.Least(BestAvailable.MAX_ATTEMPTS, |runs|)
            then s1 == w.orders[o].(pc := AcquireRun(ord, pay, runs, k + 1))
            else s1 == w.orders[o].(pc := RefundCard(ord, pay))
  {
    AcquiresIff(w, ord, runs[k], c);
  }

  /** Every run from the k-th on that the saga would try was tried in vain. */
  ghost predicate AllTurnedAway(w: World, lim: Limits, moves: seq<Move>, crashes: Crashes, o: OrderId,
                                runs: seq<seq<int>>, k: nat)
    requires o in w.orders && Possible(w, lim, moves, crashes)
  {
    forall i | k <= i < BestAvailable.Least(BestAvailable.MAX_ATTEMPTS, |runs|) ::
      TurnedAway(w, lim, moves, crashes, o, runs[i])
  }

  lemma TurnedAwayEarlier(w: World, lim: Limits, moves: seq<Move>, crashes: Crashes, o: OrderId, runs: seq<seq<int>>,
                          k: nat)
    requires o in w.orders && Possible(w, lim, moves, crashes) && moves != []
    requires AllTurnedAway(Next(w, lim, moves[0]), lim, moves[1..], crashes, o, runs, k)
    ensures AllTurnedAway(w, lim, moves, crashes, o, runs, k)
  {
  }

  lemma OneMoreTurnedAway(w: World, lim: Limits, moves: seq<Move>, crashes: Crashes, o: OrderId, runs: seq<seq<int>>,
                          k: nat)
    requires o in w.orders && Possible(w, lim, moves, crashes)
    requires k < |runs| && TurnedAway(w, lim, moves, crashes, o, runs[k])
    requires AllTurnedAway(w, lim, moves, crashes, o, runs, k + 1)
    ensures AllTurnedAway(w, lim, moves, crashes, o, runs, k)
  {
  }

  lemma LostEarlier(w: World, lim: Limits, moves: seq<Move>, crashes: Crashes, o: OrderId)
    requires o in w.orders && Possible(w, lim, moves, crashes) && moves != []
    requires LostAgain(Next(w, lim, moves[0]), lim, moves[1..], crashes, o)
    ensures LostAgain(w, lim, moves, crashes, o)
  {
  }

  lemma TurnedAwayNow(w: World, lim: Limits, moves: seq<Move>, crashes: Crashes, o: OrderId, ord: Order,
                      pay: PaymentRow, runs: seq<seq<int>>, k: nat)
    requires o in w.orders && Possible(w, lim, moves, crashes) && moves != [] && Own(moves[0], o) == 1
    requires w.orders[o].pc == AcquireRun(ord, pay, runs, k) && k < |runs|
    requires !CanHold(w, ord.event, runs[k], moves[0].choice)
    ensures TurnedAway(w, lim, moves, crashes, o, runs[k])
  {
  }

  lemma {:induction false} TriedBeforeRefund(w: World, lim: Limits, moves: seq<Move>, crashes: Crashes, o: OrderId,
                                             ord: Order, pay: PaymentRow, runs: seq<seq<int>>, k: nat)
    requires o in w.orders && !w.orders[o].row.reallocated && w.orders[o].pc == AcquireRun(ord, pay, runs, k)
    requires PcFits(w.orders[o].pc) && Possible(w, lim, moves, crashes) && LeftToItself(moves, o)
    ensures o in Run(w, lim, moves, crashes).orders
    ensures Refunds(Run(w, lim, moves, crashes).orders[o]) ==>
              LostAgain(w, lim, moves, crashes, o) || AllTurnedAway(w, lim, moves, crashes, o, runs, k)
    decreases moves, 1
  {
    if moves != [] {
      var w1, rest := Next(w, lim, moves[0]), moves[1..];
      assert moves[0] != Start(o) && moves[0] != Reconcile(o) && moves[0] != Crash(o);
      if Own(moves[0], o) == 0 {
        OthersLeaveOrder(w, lim, moves[0], o);
        TriedBeforeRefund(w1, lim, rest, crashes, o, ord, pay, runs, k);
        if AllTurnedAway(w1, lim, rest, crashes, o, runs, k) { TurnedAwayEarlier(w, lim, moves, crashes, o, runs, k); }
      } else {
        AttemptThenRefund(w, lim, moves, crashes, o, ord, pay, runs, k);
      }
    }
  }

  /** The same from the attempt itself. */
  lemma AttemptThenRefund(w: World, lim: Limits, moves: seq<Move>, crashes: Crashes, o: OrderId, ord: Order,
                          pay: PaymentRow, runs: seq<seq<int>>, k: nat)
    requires o in w.orders && !w.orders[o].row.reallocated && w.orders[o].pc == AcquireRun(ord, pay, runs, k)
    requires PcFits(w.orders[o].pc) && Possible(w, lim, moves, crashes) && LeftToItself(moves, o)
    requires moves != [] && Own(moves[0], o) == 1
    ensures o in Run(w, lim, moves, crashes).orders
    ensures Refunds(Run(w, lim, moves, crashes).orders[o]) ==>
              LostAgain(w, lim, moves, crashes, o) || AllTurnedAway(w, lim, moves, crashes, o, runs, k)
    decreases moves, 0
  {
    var w1, rest := Next(w, lim, moves[0]), moves[1..];
    AttemptLeads(w, lim, moves[0].choice, o, ord, pay, runs, k);
    if CanHold(w, ord.event, runs[k], moves[0].choice) {
      MovesUnlessLost(w1, lim, rest, crashes, o);
    } else {
      TriesOn(w1, lim, rest, crashes, o, ord, pay, runs, k + 1);
      if !LostAgain(w1, lim, rest, crashes, o) && Refunds(Run(w, lim, moves, crashes).orders[o]) {
        TurnedAwayNow(w, lim, moves, crashes, o, ord, pay, runs, k);
        TurnedAwayEarlier(w, lim, moves, crashes, o, runs, k + 1);
        OneMoreTurnedAway(w, lim, moves, crashes, o, runs, k);
      }
    }
    if LostAgain(w1, lim, rest, crashes, o) { LostEarlier(w, lim, moves, crashes, o); }
  }

  /** After a run that could not be had: the next one, or the refund when it was the last. */
  lemma TriesOn(w: World, lim: Limits, moves: seq<Move>, crashes: Crashes, o: OrderId, ord: Order, pay: PaymentRow,
                runs: seq<seq<int>>, k: nat)
    requires o in w.orders && !w.orders[o].row.reallocated && Possible(w, lim, moves, crashes) && LeftToItself(moves, o)
    requires w.orders[o].pc == if k < BestAvailable.Least(BestAvailable.MAX_ATTEMPTS, |runs|) then AcquireRun(ord, pay, runs, k)
                               else RefundCard(ord, pay)
    ensures o in Run(w, lim, moves, crashes).orders
    ensures Refunds(Run(w, lim, moves, crashes).orders[o]) ==>
              LostAgain(w, lim, moves, crashes, o) || AllTurnedAway(w, lim, moves, crashes, o, runs, k)
    decreases moves, 2
  {
    if k < BestAvailable.Least(BestAvailable.MAX_ATTEMPTS, |runs|) {
      TriedBeforeRefund(w, lim, moves, crashes, o, ord, pay, runs, k);
    } else {
      RunHeads(w, lim, moves, crashes, o, GivesBack);
    }
  }

  // ---- From a published event ----

  ghost predicate Reaches(w: World, lim: Limits, before: seq<Move>, w1: World, o: OrderId) {
    Fresh(w) && Possible(w, lim, before, BeforeReallocation) && Run(w, lim, before, BeforeReallocation) == w1 && o in w1.orders
  }

  lemma NotMovedYet(w: World, lim: Limits, before: seq<Move>, w1: World, o: OrderId)
    requires Reaches(w, lim, before, w1, o) && SeatStage(w1.orders[o].pc)
    ensures !w1.orders[o].row.reallocated
  {
    RunKeepsOneKey(w, lim, before);
  }

  /** The confirm of an order's own seats, in any run: if each is confirmable at that moment
      the order can only stop ticketed with them. */
  lemma ConfirmDecides(w: World, lim: Limits, before: seq<Move>, w1: World, c: Choice, moves: seq<Move>, o: OrderId)
    requires Reaches(w, lim, before, w1, o) && Enabled(w1, Statement(o, c))
    requires w1.orders[o].pc.ConfirmHeld? && CanBook(w1, w1.orders[o].pc)
    requires Possible(Next(w1, lim, Statement(o, c)), lim, moves, BeforeReallocation) && LeftToItself(moves, o)
    ensures var w2 := Run(Next(w1, lim, Statement(o, c)), lim, moves, BeforeReallocation);
            o in w2.orders && Heads(w2.orders[o], Keeps)
  {
    NotMovedYet(w, lim, before, w1, o);
    ConfirmHeads(w1, lim, c, moves, BeforeReallocation, o);
  }

  /** The confirm of other seats, in any run. If each is confirmable the order can only stop
      ticketed, moved to them; if one is not, the saga's next statement takes every one of
      them off the hold again and the order can only stop compensated. */
  lemma SecondConfirmDecides(w: World, lim: Limits, before: seq<Move>, w1: World, c: Choice, moves: seq<Move>,
                             o: OrderId)
    requires Reaches(w, lim, before, w1, o) && Enabled(w1, Statement(o, c)) && w1.orders[o].pc.ConfirmRun?
    requires Possible(Next(w1, lim, Statement(o, c)), lim, moves, BeforeReallocation) && LeftToItself(moves, o)
    ensures var pc, w2 := w1.orders[o].pc, Run(Next(w1, lim, Statement(o, c)), lim, moves, BeforeReallocation);
            && o in w2.orders
            && Heads(w2.orders[o], if CanBook(w1, pc) then Moves(pc.hold, pc.seats) else GivesBack)
            && forall c' | !CanBook(w1, pc) && OwnStatements(moves, o) == 0 && Enabled(w2, Statement(o, c')) ::
              GivenBack(Next(w2, lim, Statement(o, c')).table, pc.ord.event, pc.seats, pc.hold)
  {
    NotMovedYet(w, lim, before, w1, o);
    SecondConfirmHeads(w1, lim, c, moves, BeforeReallocation, o);
  }

  /** Other seats first, in any run: a saga that has searched and comes to a refund had found
      no group or asked for too many seats, or was turned away from each of the first three
      groups it found, or lost one it held before it could be confirmed. */
  lemma RefundComesLast(w: World, lim: Limits, before: seq<Move>, w1: World, c: Choice, moves: seq<Move>, o: OrderId)
    requires Reaches(w, lim, before, w1, o) && Enabled(w1, Statement(o, c)) && w1.orders[o].pc.SearchSeats?
    requires Possible(Next(w1, lim, Statement(o, c)), lim, moves, BeforeReallocation) && LeftToItself(moves, o)
    ensures var w2 := Next(w1, lim, Statement(o, c));
            var w3 := Run(w2, lim, moves, BeforeReallocation);
            var size := |w1.orders[o].pc.ord.seats|;
            var runs := BestAvailable.Runs(c.candidates, size);
            && o in w2.orders && o in w3.orders
            && (size > lim.maxSeats ==> Heads(w3.orders[o], GivesBack))
            && (Refunds(w3.orders[o]) ==>
                  || size > lim.maxSeats
                  || LostAgain(w2, lim, moves, BeforeReallocation, o)
                  || AllTurnedAway(w2, lim, moves, BeforeReallocation, o, runs, 0))
  {
    NotMovedYet(w, lim, before, w1, o);
    var pc, w2 := w1.orders[o].pc, Next(w1, lim, Statement(o, c));
    var runs := BestAvailable.Runs(c.candidates, |pc.ord.seats|);
    if |pc.ord.seats| > lim.maxSeats || runs == [] {
      RunHeads(w2, lim, moves, BeforeReallocation, o, GivesBack);
    } else {
      TriedBeforeRefund(w2, lim, moves, BeforeReallocation, o, pc.ord, pc.pay, runs, 0);
    }
  }
}
