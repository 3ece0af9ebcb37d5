/** Three things that go wrong, or only seem to, between the seat table and the bitset: a
    release that announces seats it did not free, the projector's own batches, whatever
    fails in them, and a mark that fails. */
module DrainFaults {
  import opened Wrappers
  import opened Seatmap
  import opened EventSeats
  import opened Fencing
  import opened Drain
  import opened DrainRuns
  import Projector

  // ---- What a dishonest release does ----

  ghost predicate NoSeatMoves(ms: seq<Move>) {
    forall i | 0 <= i < |ms| :: !ms[i].Seats?
  }

  lemma {:induction false} NoSeatMovesQuiet(s: System, plan: Seating, ms: seq<Move>)
    requires Fits(s, plan) && Legal(s, plan, ms) && NoSeatMoves(ms)
    ensures HonestAll(s, plan, ms)
    ensures Moves(s, plan, ms).w == s.w && Moves(s, plan, ms).outbox == s.outbox
    decreases |ms|
  {
    if ms != [] { NoSeatMovesQuiet(Move1(s, plan, ms[0]), plan, ms[1..]); }
  }

  ghost predicate AllDisplayed(s: System) {
    forall k | k in s.w.table && k.event in s.store :: HasBitset(s, k) && Displays(s, k, Shows(s.w.table[k]))
  }

  /** Events of one kind. */
  ghost predicate AllOf(evts: seq<SeatEvent>, kind: Kind) {
    forall i | 0 <= i < |evts| :: evts[i].kind == kind
  }

  lemma LastOfKind(evts: seq<SeatEvent>, kind: Kind, k: Key)
    requires AllOf(evts, kind) && LastAbout(evts, k).Some?
    ensures LastAbout(evts, k) == Some(StateOf(kind))
  {
    var i := LastAboutFrom(evts, k);
  }

  lemma ReleaseEmits(w: World, step: Step)
    requires WellFormed(step) && step.Release?
    ensures AllOf(Emitted(w, step), SeatReleased)
  {
    EventsForKind(SeatReleased, step.event, step.seats);
  }

  lemma {:induction false} EventsForKind(kind: Kind, event: int, seats: seq<int>)
    ensures AllOf(EventsFor(kind, event, seats), kind)
  {
    if seats != [] { EventsForKind(kind, event, seats[..|seats| - 1]); }
  }

  /** Only the release's rows are applied after it, and all of them say free. */
  lemma ReleasedAfterRelease(outbox: seq<SeatEvent>, more: seq<SeatEvent>, before: set<nat>, applied: seq<SeatEvent>,
                             k: Key)
    requires AppliedListed(outbox + more, before, applied) && (forall i | 0 <= i < |outbox| :: i in before)
    requires AllOf(more, SeatReleased)
    requires LastAbout(applied, k).Some?
    ensures LastAbout(applied, k) == Some(FREE) && LastAbout(outbox + more, k) == Some(FREE)
  {
    var j := LastAboutFrom(applied, k);
    assert Fresh(outbox + more, before, applied[j]);
    var i :| 0 <= i < |outbox + more| && i !in before && (outbox + more)[i] == applied[j];
    assert more[i - |outbox|] == applied[j];
    LastAboutNone(more, k);
    LastOfKind(more, SeatReleased, k);
    LastAboutAppend(outbox, more, k);
  }

  /** A seat a dishonest release announces as free though its row is not. */
  lemma DishonestSeat(w: World, step: Step) returns (k: Key)
    requires WellFormed(step) && !Honest(w.table, step)
    ensures k in w.table && k in Next(w, step).table && Shows(Next(w, step).table[k]) != FREE
    ensures LastAbout(Emitted(w, step), k) == Some(FREE)
  {
    var seat :| seat in step.seats && Key(step.event, seat) in w.table
                && !Releasable(w.table[Key(step.event, seat)], step.hold)
                && !(w.table[Key(step.event, seat)].status == AVAILABLE && w.table[Key(step.event, seat)].sellable);
    k := Key(step.event, seat);
    UnlistedUnchanged(w, step, k);
    EventsAnnounce(SeatReleased, step.event, step.seats, k);
  }

  /** The state once a release has been projected. */
  ghost predicate Projected(s: System, plan: Seating, step: Step, ms: seq<Move>, s': System) {
    && AtRest(s, plan) && Drained(s) && step.Release? && WellFormed(step)
    && Legal(Move1(s, plan, Seats(step)), plan, ms) && NoSeatMoves(ms)
    && s' == Moves(Move1(s, plan, Seats(step)), plan, ms)
    && Drained(s') && s'.lost == {}
  }

  lemma ProjectedLogged(s: System, plan: Seating, step: Step, ms: seq<Move>, s': System)
    requires Projected(s, plan, step, ms, s')
    ensures Logged(s', plan) && s'.w == Next(s.w, step) && s'.outbox == s.outbox + Emitted(s.w, step)
        && s'.before == s.before
  {
    RestIsLogged(s, plan);
    MoveStaysLogged(s, plan, Seats(step));
    NoSeatMovesQuiet(Move1(s, plan, Seats(step)), plan, ms);
    MovesStayLogged(Move1(s, plan, Seats(step)), plan, ms);
  }

  lemma ProjectedTruthful(s: System, plan: Seating, step: Step, ms: seq<Move>, s': System)
    requires Projected(s, plan, step, ms, s') && Honest(s.w.table, step)
    ensures Truthful(s')
  {
    var s1 := Move1(s, plan, Seats(step));
    RestIsLogged(s, plan);
    MoveStaysLogged(s, plan, Seats(step));
    MoveStaysTruthful(s, plan, Seats(step));
    NoSeatMovesQuiet(s1, plan, ms);
    MovesStayTruthful(s1, plan, ms);
  }

  /** A drained state after a history whose new rows all say free. */
  ghost predicate OnlyFreed(s: System, plan: Seating, outbox: seq<SeatEvent>, more: seq<SeatEvent>) {
    && Logged(s, plan) && s.outbox == outbox + more && AllOf(more, SeatReleased)
    && (forall i | 0 <= i < |outbox| :: i in s.before) && Drained(s) && s.lost == {}
  }

  lemma ProjectedOnlyFreed(s: System, plan: Seating, step: Step, ms: seq<Move>, s': System)
    requires Projected(s, plan, step, ms, s')
    ensures OnlyFreed(s', plan, s.outbox, Emitted(s.w, step)) && s'.w == Next(s.w, step) && s'.before == s.before
  {
    ProjectedLogged(s, plan, step, ms, s');
    ReleaseEmits(s.w, step);
  }

  lemma FreedDisplayed(s: System, plan: Seating, outbox: seq<SeatEvent>, more: seq<SeatEvent>, k: Key)
    requires OnlyFreed(s, plan, outbox, more) && k in s.w.table && Touched(s.outbox, s.before, k)
    ensures HasBitset(s, k) && Displays(s, k, FREE) && LastAbout(s.applied, k) == LastAbout(s.outbox, k) == Some(FREE)
  {
    DoneWithIsApplied(s, plan, k);
    ReleasedAfterRelease(outbox, more, s.before, s.applied, k);
    assert Written(s.store, s.base, s.applied, k, s.w.table[k].ordinal);
  }

  lemma HonestReleaseDisplayed(s: System, plan: Seating, outbox: seq<SeatEvent>, more: seq<SeatEvent>, k: Key)
    requires OnlyFreed(s, plan, outbox, more) && Truthful(s) && k in s.w.table && k.event in s.store
    ensures HasBitset(s, k) && Displays(s, k, Shows(s.w.table[k]))
  {
    TruthfulShows(s, plan, k);
    if Touched(s.outbox, s.before, k) { FreedDisplayed(s, plan, outbox, more, k); }
  }

  lemma DishonestReleaseDisplayed(s: System, plan: Seating, step: Step, ms: seq<Move>, s': System)
    requires Projected(s, plan, step, ms, s') && !Honest(s.w.table, step)
    ensures !AllDisplayed(s')
  {
    var k := DishonestSeat(s.w, step);
    ProjectedOnlyFreed(s, plan, step, ms, s');
    NewTouches(s.outbox, Emitted(s.w, step), s.before, k);
    FreedDisplayed(s', plan, s.outbox, Emitted(s.w, step), k);
  }

  /** A release from a drained, correct read model, then drained again, failing marks or
      not: the display is right exactly when the release was honest. */
  lemma ReleaseKeepsDisplayIffHonest(s: System, plan: Seating, step: Step, ms: seq<Move>, s': System)
    requires Projected(s, plan, step, ms, s')
    ensures AllDisplayed(s') <==> Honest(s.w.table, step)
  {
    if Honest(s.w.table, step) {
      ProjectedTruthful(s, plan, step, ms, s');
      ProjectedOnlyFreed(s, plan, step, ms, s');
      forall k | k in s'.w.table && k.event in s'.store
        ensures HasBitset(s', k) && Displays(s', k, Shows(s'.w.table[k]))
      {
        HonestReleaseDisplayed(s', plan, s.outbox, Emitted(s.w, step), k);
      }
    } else {
      DishonestReleaseDisplayed(s, plan, step, ms, s');
    }
  }

  /** Such a release: seat 10 is on hold 7, seat 11 has been sold, and both are listed. */
  lemma SoldSeatAnnouncedFree(held: Row, sold: Row, now: Time)
    requires Releasable(held, 7) && sold.status == BOOKED
    ensures var t, step := map[Key(1, 10) := held, Key(1, 11) := sold], Release(1, [10, 11], 7);
            && !Honest(t, step)
            && Emitted(World(t, now), step) == [SeatEvent(SeatReleased, Key(1, 10)), SeatEvent(SeatReleased, Key(1, 11))]
            && Next(World(t, now), step).table[Key(1, 11)] == sold
  {
    var t := map[Key(1, 10) := held, Key(1, 11) := sold];
    ReleaseAny(t, 1, [10, 11], 7);
    assert 10 in [10, 11] && Key(1, 10) in t;
    assert [10, 11][1] == 11 && 11 in [10, 11];
  }

  // ---- The projector's batch is a stretch of such a history ----

  function EventsOf(outbox: seq<SeatEvent>, batch: seq<nat>): (evts: seq<Projector.DomainEvent>)
    requires forall m | 0 <= m < |batch| :: batch[m] < |outbox|
    ensures |evts| == |batch|
  {
    seq(|batch|, m requires 0 <= m < |batch| => AsDomainEvent(batch[m], outbox[batch[m]]))
  }

  /** Where the projector is: what it has written, loaded and marked, and whether it gave up. */
  datatype Account = Account(store: Projector.Store, known: set<int>, processed: set<nat>, failed: bool)

  function AccountOf(b: Projector.Batch): Account {
    Account(b.store, b.known, b.processed, b.failed)
  }

  /** One listed row's turn. */
  function Turn(a: Account, t: Table, plan: Seating, i: nat, evt: SeatEvent, trouble: Projector.Trouble): (a': Account)
    requires Seated(t, plan) && CachesFit(a.store, plan)
    ensures CachesFit(a'.store, plan)
  {
    var marked := if i in trouble.unmarkable then a.processed else a.processed + {i};
    if evt.key.event !in a.known && i in trouble.down then a.(processed := marked)
    else
      var (store, ok) := ApplyEvent(a.store, t, plan, evt);
      Account(store, a.known + {evt.key.event}, if ok then marked else a.processed, !ok)
  }

  lemma ConsumeNextIsTurn(b: Projector.Batch, t: Table, plan: Seating, i: nat, evt: SeatEvent,
                          trouble: Projector.Trouble)
    requires Seated(t, plan) && CachesFit(b.store, plan) && !b.failed
    ensures Projector.Fits(b.store, LayoutOf(t, plan), AllRows(t, plan))
    ensures AccountOf(Projector.ConsumeNext(b, LayoutOf(t, plan), AllRows(t, plan), AsDomainEvent(i, evt), trouble))
            == Turn(AccountOf(b), t, plan, i, evt, trouble)
  {
    ConsumeIsApplyEvent(b.store, b.known, t, plan, i, evt, trouble.down);
  }

  function FirstMove(s: System, plan: Seating, trouble: Projector.Trouble): (m: Move)
    requires Fits(s, plan) && s.batch != [] && !s.inFlight
    ensures Enabled(s, plan, m)
  {
    if s.outbox[s.batch[0]].key.event !in s.known && s.batch[0] in trouble.down then LoseNext else ApplyNext
  }

  ghost predicate At(s: System, a: Account) {
    s.store == a.store && s.known == a.known && s.processed == a.processed && !s.inFlight
  }

  /** A turn is an apply or a failed load, and then a mark unless the apply failed. */
  function Turned(s: System, plan: Seating, trouble: Projector.Trouble): (s': System)
    requires Fits(s, plan) && s.batch != [] && !s.inFlight
    ensures Fits(s', plan)
  {
    var s1 := Move1(s, plan, FirstMove(s, plan, trouble));
    if s1.inFlight then Move1(s1, plan, MarkNext(s.batch[0] in trouble.unmarkable)) else s1
  }

  ghost predicate TurnAgrees(s: System, s': System, a': Account) {
    At(s', a') && s'.w == s.w && s'.outbox == s.outbox && s.batch != []
        && s'.batch == if a'.failed then [] else s.batch[1..]
  }

  lemma LostTurn(s: System, plan: Seating, trouble: Projector.Trouble, a: Account)
    requires Fits(s, plan) && s.batch != [] && At(s, a) && !a.failed
    requires s.outbox[s.batch[0]].key.event !in s.known && s.batch[0] in trouble.down
    ensures TurnAgrees(s, Turned(s, plan, trouble), Turn(a, s.w.table, plan, s.batch[0], s.outbox[s.batch[0]], trouble))
  {
    assert FirstMove(s, plan, trouble) == LoseNext;
    var s1 := Move1(s, plan, LoseNext);
    assert s1 == s.(lost := s.lost + {s.batch[0]}, inFlight := true);
  }

  lemma AppliedTurn(s: System, plan: Seating, trouble: Projector.Trouble, a: Account)
    requires Fits(s, plan) && s.batch != [] && At(s, a) && !a.failed
    requires s.outbox[s.batch[0]].key.event in s.known || s.batch[0] !in trouble.down
    ensures TurnAgrees(s, Turned(s, plan, trouble), Turn(a, s.w.table, plan, s.batch[0], s.outbox[s.batch[0]], trouble))
  {
    assert FirstMove(s, plan, trouble) == ApplyNext;
    var s1, r := Move1(s, plan, ApplyNext), ApplyEvent(s.store, s.w.table, plan, s.outbox[s.batch[0]]);
    assert s1.store == r.0 && s1.inFlight == r.1 && s1.batch == (if r.1 then s.batch else []);
  }

  lemma TurnedIsTurn(s: System, plan: Seating, trouble: Projector.Trouble, a: Account)
    requires Fits(s, plan) && s.batch != [] && At(s, a) && !a.failed
    ensures TurnAgrees(s, Turned(s, plan, trouble), Turn(a, s.w.table, plan, s.batch[0], s.outbox[s.batch[0]], trouble))
  {
    if s.outbox[s.batch[0]].key.event !in s.known && s.batch[0] in trouble.down {
      LostTurn(s, plan, trouble, a);
    } else {
      AppliedTurn(s, plan, trouble, a);
    }
  }

  lemma TurnThen(s: System, plan: Seating, trouble: Projector.Trouble, rest: seq<Move>) returns (ms: seq<Move>)
    requires Fits(s, plan) && s.batch != [] && !s.inFlight
    requires Legal(Turned(s, plan, trouble), plan, rest) && NoSeatMoves(rest)
    ensures Legal(s, plan, ms) && NoSeatMoves(ms) && Moves(s, plan, ms) == Moves(Turned(s, plan, trouble), plan, rest)
  {
    var m1 := FirstMove(s, plan, trouble);
    var s1 := Move1(s, plan, m1);
    if s1.inFlight {
      var m2 := MarkNext(s.batch[0] in trouble.unmarkable);
      MovesCons(s1, plan, m2, rest);
      MovesCons(s, plan, m1, [m2] + rest);
      ms := [m1] + ([m2] + rest);
    } else {
      MovesCons(s, plan, m1, rest);
      ms := [m1] + rest;
    }
  }

  /** The turns of a batch, from place n on. */
  function Turns(a: Account, t: Table, plan: Seating, outbox: seq<SeatEvent>, batch: seq<nat>, n: nat,
                 trouble: Projector.Trouble): Account
    requires Seated(t, plan) && CachesFit(a.store, plan) && forall m | 0 <= m < |batch| :: batch[m] < |outbox|
    decreases |batch| - n
  {
    if n >= |batch| || a.failed then a
    else Turns(Turn(a, t, plan, batch[n], outbox[batch[n]], trouble), t, plan, outbox, batch, n + 1, trouble)
  }

  lemma {:induction false} ConsumeAllIsTurns(b: Projector.Batch, t: Table, plan: Seating, outbox: seq<SeatEvent>,
                                             batch: seq<nat>,
                                             n: nat, trouble: Projector.Trouble)
    requires Seated(t, plan) && CachesFit(b.store, plan) && forall m | 0 <= m < |batch| :: batch[m] < |outbox|
    ensures Projector.Fits(b.store, LayoutOf(t, plan), AllRows(t, plan))
    ensures AccountOf(Projector.ConsumeAll(b, LayoutOf(t, plan), AllRows(t, plan), EventsOf(outbox, batch), n, trouble))
            == Turns(AccountOf(b), t, plan, outbox, batch, n, trouble)
    decreases |batch| - n
  {
    var layout, db, evts := LayoutOf(t, plan), AllRows(t, plan), EventsOf(outbox, batch);
    ProjectorFits(b.store, t, plan);
    if b.failed {
      Projector.FailureSticks(b, layout, db, evts, n, trouble);
    } else if n < |batch| {
      ConsumeNextIsTurn(b, t, plan, batch[n], outbox[batch[n]], trouble);
      ConsumeAllIsTurns(Projector.ConsumeNext(b, layout, db, evts[n], trouble), t, plan, outbox, batch, n + 1, trouble);
    }
  }

  lemma {:induction false} TurnsAreMoves(s: System, plan: Seating, trouble: Projector.Trouble, batch: seq<nat>,
                                         n: nat, a: Account)
    returns (ms: seq<Move>)
    requires Fits(s, plan) && At(s, a) && (forall m | 0 <= m < |batch| :: batch[m] < |s.outbox|) && n <= |batch|
    requires s.batch == if a.failed then [] else batch[n..]
    ensures Legal(s, plan, ms) && NoSeatMoves(ms)
    ensures At(Moves(s, plan, ms), Turns(a, s.w.table, plan, s.outbox, batch, n, trouble))
        && Moves(s, plan, ms).batch == []
    decreases |batch| - n
  {
    if n == |batch| || a.failed {
      ms := [];
    } else {
      var a' := Turn(a, s.w.table, plan, batch[n], s.outbox[batch[n]], trouble);
      TurnedIsTurn(s, plan, trouble, a);
      var rest := TurnsAreMoves(Turned(s, plan, trouble), plan, trouble, batch, n + 1, a');
      ms := TurnThen(s, plan, trouble, rest);
    }
  }

  lemma MovesCons(s: System, plan: Seating, m: Move, ms: seq<Move>)
    requires Fits(s, plan) && Enabled(s, plan, m) && Legal(Move1(s, plan, m), plan, ms)
    ensures Legal(s, plan, [m] + ms) && Moves(s, plan, [m] + ms) == Moves(Move1(s, plan, m), plan, ms)
  {
    assert ([m] + ms)[1..] == ms;
  }

  /** One RunOnce of the projector, whatever marks and loads fail in it, is a legal stretch
      of moves from a listed batch to none. */
  lemma RunOnceIsMoves(s: System, plan: Seating, trouble: Projector.Trouble) returns (ms: seq<Move>)
    requires Fits(s, plan) && !s.inFlight
    ensures Legal(s, plan, ms) && NoSeatMoves(ms)
    ensures Projector.Fits(s.store, LayoutOf(s.w.table, plan), AllRows(s.w.table, plan))
    ensures var b := Projector.ConsumeAll(Projector.Batch(s.store, s.known, s.processed, 0, false),
                                          LayoutOf(s.w.table, plan),
                                          AllRows(s.w.table, plan), EventsOf(s.outbox, s.batch), 0, trouble);
            At(Moves(s, plan, ms), AccountOf(b)) && Moves(s, plan, ms).batch == []
  {
    var b := Projector.Batch(s.store, s.known, s.processed, 0, false);
    ms := TurnsAreMoves(s, plan, trouble, s.batch, 0, AccountOf(b));
    ConsumeAllIsTurns(b, s.w.table, plan, s.outbox, s.batch, 0, trouble);
  }

  // ---- A failed mark that hides a sale ----

  const SOLD_KEY := Key(1, 10)

  /** One seat, published and untouched. */
  ghost predicate OneSeat(row: Row) {
    row.ordinal == 0 && row.sellable && row.status == AVAILABLE && row.fence == 0
  }

  /** The seat is held for a minute and sold. */
  function Sale(): (r: (Step, Step)) {
    (Acquire(1, [10], 7, "buyer", 60), Confirm(1, [10], [1], 7, 3))
  }

  lemma SaleEmits(row: Row, now: Time)
    requires OneSeat(row)
    ensures var w := World(map[SOLD_KEY := row], now);
            && Emitted(w, Sale().0) == [SeatEvent(SeatHeld, SOLD_KEY)]
            && Emitted(Next(w, Sale().0), Sale().1) == [SeatEvent(SeatBooked, SOLD_KEY)]
            && SOLD_KEY in Next(Next(w, Sale().0), Sale().1).table
            && Shows(Next(Next(w, Sale().0), Sale().1).table[SOLD_KEY]) == SOLD
  {
    var w := World(map[SOLD_KEY := row], now);
    var w1 := Next(w, Sale().0);
    OneSeatHeld(row, now);
    OneSeatSold(w1);
  }

  lemma OneSeatHeld(row: Row, now: Time)
    requires OneSeat(row)
    ensures var w := World(map[SOLD_KEY := row], now);
            && Emitted(w, Sale().0) == [SeatEvent(SeatHeld, SOLD_KEY)]
            && Next(w, Sale().0) == World(map[SOLD_KEY := HeldRow(row, 7, "buyer", now + 60)], now)
  {
    var t := map[SOLD_KEY := row];
    AcquireAllOrNothing(t, 1, [10], now);
    assert EventsFor(SeatHeld, 1, [10]) == [SeatEvent(SeatHeld, SOLD_KEY)] by { assert [10][..0] == []; }
  }

  lemma OneSeatSold(w: World)
    requires w.table.Keys == {SOLD_KEY} && Confirmable(w.table[SOLD_KEY], 7, 1, w.now) && w.table[SOLD_KEY].sellable
    ensures Emitted(w, Sale().1) == [SeatEvent(SeatBooked, SOLD_KEY)]
    ensures SOLD_KEY in Next(w, Sale().1).table && Shows(Next(w, Sale().1).table[SOLD_KEY]) == SOLD
  {
    ConfirmAllOrNothing(w.table, 1, [10], [1], 7, w.now);
    assert EventsFor(SeatBooked, 1, [10]) == [SeatEvent(SeatBooked, SOLD_KEY)] by { assert [10][..0] == []; }
  }

  ghost predicate Leads(s: System, plan: Seating, ms: seq<Move>, s': System)
    requires Fits(s, plan)
  {
    Legal(s, plan, ms) && HonestAll(s, plan, ms) && Moves(s, plan, ms) == s'
  }

  lemma LeadsCons(s: System, plan: Seating, m: Move, ms: seq<Move>, s': System)
    requires Fits(s, plan) && Enabled(s, plan, m) && !(m.Seats? && m.step.Release?)
        && Leads(Move1(s, plan, m), plan, ms, s')
    ensures Leads(s, plan, [m] + ms, s')
  {
    assert ([m] + ms)[1..] == ms;
  }

  const HELD_EVT := SeatEvent(SeatHeld, SOLD_KEY)
  const SOLD_EVT := SeatEvent(SeatBooked, SOLD_KEY)

  /** The sale committed, and how far its two rows have been projected. */
  ghost predicate Stage(s: System, plan: Seating, processed: set<nat>, batch: seq<nat>, inFlight: bool,
                        applied: seq<SeatEvent>) {
    && Fits(s, plan) && SOLD_KEY in s.w.table && s.outbox == [HELD_EVT, SOLD_EVT] && s.before == {} && s.lost == {}
    && s.processed == processed && s.batch == batch && s.inFlight == inFlight && s.applied == applied
    && (1 in s.store ==> s.store[1].seqNo <= |applied|)
  }

  lemma StageApply(s: System, plan: Seating, processed: set<nat>, batch: seq<nat>, applied: seq<SeatEvent>)
    requires Stage(s, plan, processed, batch, false, applied) && batch != [] && |applied| < 5
    ensures Enabled(s, plan, ApplyNext)
    ensures Stage(Move1(s, plan, ApplyNext), plan, processed, batch, true, applied + [s.outbox[batch[0]]])
    ensures Move1(s, plan, ApplyNext).w == s.w
  {
  }

  lemma StageMark(s: System, plan: Seating, processed: set<nat>, batch: seq<nat>, applied: seq<SeatEvent>, fails: bool)
    requires Stage(s, plan, processed, batch, true, applied) && batch != []
    ensures Enabled(s, plan, MarkNext(fails))
    ensures Stage(Move1(s, plan, MarkNext(fails)), plan, if fails then processed else processed + {batch[0]},
                  batch[1..], false, applied)
    ensures Move1(s, plan, MarkNext(fails)).w == s.w
  {
  }

  lemma StageList(s: System, plan: Seating, processed: set<nat>, applied: seq<SeatEvent>)
    requires Stage(s, plan, processed, [], false, applied)
    ensures Enabled(s, plan, List(2))
    ensures Stage(Move1(s, plan, List(2)), plan, processed, NextRows(2, processed, 2), false, applied)
    ensures Move1(s, plan, List(2)).w == s.w
  {
  }

  lemma FirstRows()
    ensures NextRows(2, {}, 2) == [0, 1] && NextRows(2, {1}, 2) == [0]
  {
    assert Unprocessed(1, {}) == [0] && Unprocessed(1, {1}) == [0];
  }

  /** The row at the head of the batch is applied, and marked or not, and then the rest follows. */
  lemma TakeThen(s: System, plan: Seating, processed: set<nat>, batch: seq<nat>, applied: seq<SeatEvent>,
                 fails: bool) returns (s': System)
    requires Stage(s, plan, processed, batch, false, applied) && batch != [] && |applied| < 5
    ensures Stage(s', plan, if fails then processed else processed + {batch[0]}, batch[1..], false,
                  applied + [s.outbox[batch[0]]])
    ensures s'.w == s.w
    ensures Enabled(s, plan, ApplyNext) && Enabled(Move1(s, plan, ApplyNext), plan, MarkNext(fails))
    ensures s' == Move1(Move1(s, plan, ApplyNext), plan, MarkNext(fails))
  {
    StageApply(s, plan, processed, batch, applied);
    var s1 := Move1(s, plan, ApplyNext);
    StageMark(s1, plan, processed, batch, applied + [s.outbox[batch[0]]], fails);
    s' := Move1(s1, plan, MarkNext(fails));
  }

  lemma LeadsTake(s: System, plan: Seating, fails: bool, ms: seq<Move>, s': System) returns (all: seq<Move>)
    requires Fits(s, plan) && Enabled(s, plan, ApplyNext) && Enabled(Move1(s, plan, ApplyNext), plan, MarkNext(fails))
    requires Leads(Move1(Move1(s, plan, ApplyNext), plan, MarkNext(fails)), plan, ms, s')
    ensures Leads(s, plan, all, s')
  {
    LeadsCons(Move1(s, plan, ApplyNext), plan, MarkNext(fails), ms, s');
    LeadsCons(s, plan, ApplyNext, [MarkNext(fails)] + ms, s');
    all := [ApplyNext] + ([MarkNext(fails)] + ms);
  }

  ghost predicate HoldLast(s: System, plan: Seating) {
    Stage(s, plan, {0, 1}, [], false, [HELD_EVT, SOLD_EVT, HELD_EVT])
  }

  /** The hold's row again. */
  lemma LastTake(s: System, plan: Seating) returns (ms: seq<Move>, s': System)
    requires Stage(s, plan, {1}, [0], false, [HELD_EVT, SOLD_EVT])
    ensures Leads(s, plan, ms, s') && HoldLast(s', plan) && s'.w == s.w
  {
    s' := TakeThen(s, plan, {1}, [0], [HELD_EVT, SOLD_EVT], false);
    ms := LeadsTake(s, plan, false, [], s');
    LastStage(s', plan);
  }

  lemma LastStage(s: System, plan: Seating)
    requires Stage(s, plan, {1} + {0}, [0][1..], false, [HELD_EVT, SOLD_EVT] + [HELD_EVT])
    ensures HoldLast(s, plan)
  {
  }

  lemma SecondBatch(s: System, plan: Seating) returns (ms: seq<Move>, s': System)
    requires Stage(s, plan, {1}, [], false, [HELD_EVT, SOLD_EVT])
    ensures Leads(s, plan, ms, s') && HoldLast(s', plan) && s'.w == s.w
  {
    FirstRows();
    StageList(s, plan, {1}, [HELD_EVT, SOLD_EVT]);
    var rest, end := LastTake(Move1(s, plan, List(2)), plan);
    LeadsCons(s, plan, List(2), rest, end);
    ms, s' := [List(2)] + rest, end;
  }

  /** The sale's row, marked. */
  lemma RestOfFirstBatch(s: System, plan: Seating) returns (ms: seq<Move>, s': System)
    requires Stage(s, plan, {}, [1], false, [HELD_EVT])
    ensures Leads(s, plan, ms, s') && HoldLast(s', plan) && s'.w == s.w
  {
    var s1 := TakeThen(s, plan, {}, [1], [HELD_EVT], false);
    assert {} + {1} == {1} && [1][1..] == [] && [HELD_EVT] + [SOLD_EVT] == [HELD_EVT, SOLD_EVT];
    var rest, end := SecondBatch(s1, plan);
    ms := LeadsTake(s, plan, false, rest, end);
    s' := end;
  }

  /** The hold is applied and its mark fails, the sale is applied and marked, and the next
      batch applies the hold again. */
  lemma HoldReplayed(s: System, plan: Seating) returns (ms: seq<Move>, s': System)
    requires Stage(s, plan, {}, [], false, [])
    ensures Leads(s, plan, ms, s') && HoldLast(s', plan) && s'.w == s.w
  {
    FirstRows();
    StageList(s, plan, {}, []);
    var s1 := Move1(s, plan, List(2));
    var s2 := TakeThen(s1, plan, {}, [0, 1], [], true);
    assert [0, 1][1..] == [1] && [] + [HELD_EVT] == [HELD_EVT];
    var rest, end := RestOfFirstBatch(s2, plan);
    var take := LeadsTake(s1, plan, true, rest, end);
    LeadsCons(s, plan, List(2), take, end);
    ms, s' := [List(2)] + take, end;
  }

  lemma HoldLastDisplayed(s: System, plan: Seating)
    requires HoldLast(s, plan) && Logged(s, plan)
    ensures Drained(s) && s.lost == {} && HasBitset(s, SOLD_KEY) && Displays(s, SOLD_KEY, Seatmap.HELD)
  {
    assert s.outbox[0].key == SOLD_KEY;
    DoneWithIsApplied(s, plan, SOLD_KEY);
    LastAboutIs(s.applied, 2, SOLD_KEY);
    assert Written(s.store, s.base, s.applied, SOLD_KEY, s.w.table[SOLD_KEY].ordinal);
  }

  /** The seat held, then sold. */
  lemma SaleCommitted(row: Row, now: Time)
    requires OneSeat(row)
    ensures var s, plan := Published(map[SOLD_KEY := row], now), map[1 := [10]];
            && Seated(s.w.table, plan)
            && var s2 := Move1(Move1(s, plan, Seats(Sale().0)), plan, Seats(Sale().1));
               Stage(s2, plan, {}, [], false, []) && Shows(s2.w.table[SOLD_KEY]) == SOLD
  {
    SaleEmits(row, now);
  }

  lemma SaleThen(s: System, plan: Seating, rest: seq<Move>, s': System)
    requires Fits(s, plan) && Leads(Move1(Move1(s, plan, Seats(Sale().0)), plan, Seats(Sale().1)), plan, rest, s')
    ensures Leads(s, plan, [Seats(Sale().0)] + ([Seats(Sale().1)] + rest), s')
  {
    LeadsCons(Move1(s, plan, Seats(Sale().0)), plan, Seats(Sale().1), rest, s');
    LeadsCons(s, plan, Seats(Sale().0), [Seats(Sale().1)] + rest, s');
  }

  /** And projected with the hold's mark failing. */
  lemma SaleThenReplay(row: Row, now: Time) returns (ms: seq<Move>, s': System)
    requires OneSeat(row)
    ensures var s, plan := Published(map[SOLD_KEY := row], now), map[1 := [10]];
            && AtRest(s, plan) && Leads(s, plan, ms, s') && HoldLast(s', plan)
            && Shows(s'.w.table[SOLD_KEY]) == SOLD
  {
    var s, plan := Published(map[SOLD_KEY := row], now), map[1 := [10]];
    FreshIsAtRest(map[SOLD_KEY := row], plan, now);
    SaleCommitted(row, now);
    var rest, end := HoldReplayed(Move1(Move1(s, plan, Seats(Sale().0)), plan, Seats(Sale().1)), plan);
    SaleThen(s, plan, rest, end);
    ms, s' := [Seats(Sale().0)] + ([Seats(Sale().1)] + rest), end;
  }

  /** From a published event: a seat is held and sold, the hold's mark fails once, and when
      everything is marked the sold seat is displayed as held. */
  lemma FailedMarkHidesSale(row: Row, now: Time) returns (ms: seq<Move>)
    requires OneSeat(row)
    ensures var s, plan := Published(map[SOLD_KEY := row], now), map[1 := [10]];
            && AtRest(s, plan) && Legal(s, plan, ms) && HonestAll(s, plan, ms)
            && var s' := Moves(s, plan, ms);
               Drained(s') && s'.lost == {} && HasBitset(s', SOLD_KEY)
               && Displays(s', SOLD_KEY, Seatmap.HELD) && Shows(s'.w.table[SOLD_KEY]) == SOLD
  {
    var end;
    ms, end := SaleThenReplay(row, now);
    var s, plan := Published(map[SOLD_KEY := row], now), map[1 := [10]];
    RestIsLogged(s, plan);
    MovesStayLogged(s, plan, ms);
    HoldLastDisplayed(end, plan);
  }
}
