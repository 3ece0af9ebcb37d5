/** A whole run in which a stale release hides a sale, and on the way to it: a batch
    without trouble applies its rows in order, so that any outbox can be drained. */
module DrainStale {
  import opened Wrappers
  import opened Seatmap
  import ReadModel
  import opened EventSeats
  import opened Fencing
  import opened Drain
  import opened DrainRuns
  import opened DrainFaults

  function EventsAt(outbox: seq<SeatEvent>, rows: seq<nat>): (evts: seq<SeatEvent>)
    requires forall m | 0 <= m < |rows| :: rows[m] < |outbox|
    ensures |evts| == |rows|
  {
    seq(|rows|, m requires 0 <= m < |rows| => outbox[rows[m]])
  }

  /** Every row of the batch names a seat, and no counter is near its end. */
  ghost predicate Takeable(s: System, plan: Seating) {
    && Fits(s, plan) && !s.inFlight
    && (forall m | 0 <= m < |s.batch| :: s.outbox[s.batch[m]].key in s.w.table)
    && (forall e | e in s.store :: s.store[e].seqNo + |s.batch| <= ReadModel.MAX_SEQ)
    && |s.batch| <= ReadModel.MAX_SEQ
  }

  lemma HeadApplied(s: System, plan: Seating)
    requires Takeable(s, plan) && s.batch != []
    ensures Enabled(s, plan, ApplyNext)
    ensures var s1 := Move1(s, plan, ApplyNext);
            && s1.inFlight && s1.applied == s.applied + [s.outbox[s.batch[0]]]
            && (forall e | e in s1.store :: s1.store[e].seqNo + |s.batch| <= ReadModel.MAX_SEQ + 1)
            && s1 == s.(store := s1.store, base := s1.base, applied := s1.applied, known := s1.known, inFlight := true)
  {
  }

  /** The head of the batch applied and marked. */
  function HeadTaken(s: System, plan: Seating): (s': System)
    requires Takeable(s, plan) && s.batch != []
    ensures Fits(s', plan)
  {
    HeadApplied(s, plan);
    Move1(Move1(s, plan, ApplyNext), plan, MarkNext(false))
  }

  lemma HeadMarked(s: System, plan: Seating)
    requires Fits(s, plan) && s.batch != [] && s.inFlight
    ensures Move1(s, plan, MarkNext(false)) == s.(processed := s.processed + {s.batch[0]}, batch := s.batch[1..], inFlight := false)
  {
  }

  lemma HeadTakenIs(s: System, plan: Seating)
    requires Takeable(s, plan) && s.batch != []
    ensures var s', s1 := HeadTaken(s, plan), Move1(s, plan, ApplyNext);
            s' == s.(store := s1.store, base := s1.base, applied := s.applied + [s.outbox[s.batch[0]]], known := s1.known,
                     processed := s.processed + {s.batch[0]}, batch := s.batch[1..])
            && forall e | e in s'.store :: s'.store[e].seqNo + |s'.batch| <= ReadModel.MAX_SEQ
  {
    HeadApplied(s, plan);
    HeadMarked(Move1(s, plan, ApplyNext), plan);
  }

  /** What taking the head of a batch does. */
  ghost predicate HeadDone(s: System, s': System) {
    && s.batch != [] && s.batch[0] < |s.outbox|
    && s'.batch == s.batch[1..] && s'.applied == s.applied + [s.outbox[s.batch[0]]] && !s'.inFlight
    && s'.processed == s.processed + {s.batch[0]} && s'.w == s.w && s'.outbox == s.outbox && s'.lost == s.lost
  }

  lemma HeadStep(s: System, plan: Seating) returns (s': System)
    requires Takeable(s, plan) && s.batch != []
    ensures Takeable(s', plan) && HeadDone(s, s') && s' == HeadTaken(s, plan)
  {
    HeadTakenIs(s, plan);
    s' := HeadTaken(s, plan);
  }

  lemma HeadThen(s: System, plan: Seating, rest: seq<Move>, s': System) returns (ms: seq<Move>)
    requires Takeable(s, plan) && s.batch != [] && Leads(HeadTaken(s, plan), plan, rest, s')
    ensures Leads(s, plan, ms, s')
  {
    HeadApplied(s, plan);
    ms := LeadsTake(s, plan, false, rest, s');
  }

  /** What taking a whole batch does. */
  ghost predicate BatchDone(s: System, s': System) {
    && (forall m | 0 <= m < |s.batch| :: s.batch[m] < |s.outbox|)
    && s'.applied == s.applied + EventsAt(s.outbox, s.batch) && s'.batch == [] && !s'.inFlight
    && (forall i :: i in s'.processed <==> i in s.processed || i in s.batch)
    && s'.w == s.w && s'.outbox == s.outbox && s'.lost == s.lost
  }

  lemma BatchGoesOn(s: System, s1: System, s': System)
    requires forall m | 0 <= m < |s.batch| :: s.batch[m] < |s.outbox|
    requires HeadDone(s, s1) && BatchDone(s1, s')
    ensures BatchDone(s, s')
  {
    assert EventsAt(s.outbox, s.batch) == [s.outbox[s.batch[0]]] + EventsAt(s.outbox, s.batch[1..]);
    assert s.batch == [s.batch[0]] + s.batch[1..];
  }

  /** A batch without trouble applies and marks all of its rows. */
  lemma {:induction false} BatchTaken(s: System, plan: Seating) returns (ms: seq<Move>, s': System)
    requires Takeable(s, plan)
    ensures Leads(s, plan, ms, s') && BatchDone(s, s')
    decreases |s.batch|
  {
    if s.batch == [] {
      ms, s' := [], s;
    } else {
      var s1 := HeadStep(s, plan);
      var rest, end := BatchTaken(s1, plan);
      ms := HeadThen(s, plan, rest, end);
      BatchGoesOn(s, s1, end);
      s' := end;
    }
  }

  lemma {:induction false} NothingMarked(n: nat)
    ensures Unprocessed(n, {}) == seq(n, i => i)
  {
    if n > 0 { NothingMarked(n - 1); }
  }

  /** Rows nobody has projected, in a table that knows their seats. */
  ghost predicate Unprojected(s: System, plan: Seating) {
    && Fits(s, plan) && s.batch == [] && !s.inFlight && s.processed == {} && s.store == map[] && s.applied == []
        && s.lost == {}
    && |s.outbox| <= ReadModel.MAX_SEQ && forall i | 0 <= i < |s.outbox| :: s.outbox[i].key in s.w.table
  }

  /** The whole outbox can be drained, applying its events in order. */
  lemma DrainsInOrder(s: System, plan: Seating) returns (ms: seq<Move>, s': System)
    requires Unprojected(s, plan)
    ensures Leads(s, plan, ms, s') && Drained(s') && s'.lost == {} && s'.applied == s.outbox && s'.w == s.w
        && s'.outbox == s.outbox
  {
    var n := |s.outbox|;
    NothingMarked(n);
    var s1 := Move1(s, plan, List(n));
    assert s1.batch == seq(n, i => i);
    var rest, end := BatchTaken(s1, plan);
    LeadsCons(s, plan, List(n), rest, end);
    ms, s' := [List(n)] + rest, end;
    assert EventsAt(s.outbox, s1.batch) == s.outbox;
    forall i | 0 <= i < n ensures i in s'.processed { assert s1.batch[i] == i; }
  }

  const KEPT_KEY := Key(1, 10)
  const LOST_KEY := Key(1, 11)

  ghost predicate FreeSeat(row: Row, ordinal: nat) {
    row.ordinal == ordinal && row.sellable && row.status == AVAILABLE && row.fence == 0
  }

  function TwoSeats(r10: Row, r11: Row): Table {
    map[KEPT_KEY := r10, LOST_KEY := r11]
  }

  const BOTH_HELD := Acquire(1, [10, 11], 7, "first", 60)
  const ONE_RETAKEN := Acquire(1, [11], 8, "second", 600)
  const ONE_SOLD := Confirm(1, [11], [2], 8, 3)
  const BOTH_RELEASED := Release(1, [10, 11], 7)

  lemma BothHeld(r10: Row, r11: Row, now: Time)
    requires FreeSeat(r10, 0) && FreeSeat(r11, 1)
    ensures var w := World(TwoSeats(r10, r11), now);
            && Emitted(w, BOTH_HELD) == [SeatEvent(SeatHeld, KEPT_KEY), SeatEvent(SeatHeld, LOST_KEY)]
            && Next(w, BOTH_HELD) == World(TwoSeats(HeldRow(r10, 7, "first", now + 60), HeldRow(r11, 7, "first", now + 60)), now)
  {
    AcquireAllOrNothing(TwoSeats(r10, r11), 1, [10, 11], now);
    assert forall s | s in [10, 11] :: s == 10 || s == 11;
    assert 10 in [10, 11] && 11 in [10, 11];
    assert [10, 11][0] == 10 && [10, 11][1] == 11;
  }

  lemma OneRetaken(r10: Row, r11: Row, now: Time)
    requires OnHold(r11) && r11.sellable && r11.expires.Some? && r11.expires.value < now
    ensures var w := World(TwoSeats(r10, r11), now);
            && Emitted(w, ONE_RETAKEN) == [SeatEvent(SeatHeld, LOST_KEY)]
            && Next(w, ONE_RETAKEN) == World(TwoSeats(r10, HeldRow(r11, 8, "second", now + 600)), now)
  {
    AcquireAllOrNothing(TwoSeats(r10, r11), 1, [11], now);
    assert forall s | s in [11] :: s == 11;
    assert 10 !in [11] && 11 in [11];
  }

  lemma OneSold(r10: Row, r11: Row, now: Time)
    requires Confirmable(r11, 8, 2, now)
    ensures var w := World(TwoSeats(r10, r11), now);
            && Emitted(w, ONE_SOLD) == [SeatEvent(SeatBooked, LOST_KEY)]
            && Next(w, ONE_SOLD) == World(TwoSeats(r10, BookedRow(r11, 3)), now)
  {
    ConfirmAllOrNothing(TwoSeats(r10, r11), 1, [11], [2], 8, now);
    assert FenceOffered([11], [2], 11, 2) by { assert [11][0] == 11 && [2][0] == 2; }
    assert !FenceOffered([11], [2], 10, r10.fence);
  }

  lemma BothReleased(r10: Row, r11: Row, now: Time)
    requires Releasable(r10, 7) && r11.status == BOOKED
    ensures var w := World(TwoSeats(r10, r11), now);
            && Emitted(w, BOTH_RELEASED) == [SeatEvent(SeatReleased, KEPT_KEY), SeatEvent(SeatReleased, LOST_KEY)]
            && Next(w, BOTH_RELEASED) == World(TwoSeats(FreedRow(r10), r11), now)
  {
    ReleaseAny(TwoSeats(r10, r11), 1, [10, 11], 7);
    assert 10 in [10, 11] && KEPT_KEY in TwoSeats(r10, r11);
    assert [10, 11][1] == 11 && 11 in [10, 11];
  }

  /** The same, whether or not the releases on the way are honest. */
  ghost predicate Goes(s: System, plan: Seating, ms: seq<Move>, s': System)
    requires Fits(s, plan)
  {
    Legal(s, plan, ms) && Moves(s, plan, ms) == s'
  }

  lemma SeatsThen(s: System, plan: Seating, step: Step, ms: seq<Move>, s': System)
    requires Fits(s, plan) && WellFormed(step) && Goes(Move1(s, plan, Seats(step)), plan, ms, s')
    ensures Goes(s, plan, [Seats(step)] + ms, s')
  {
    assert ([Seats(step)] + ms)[1..] == ms;
  }

  /** A published event with the transactions committed so far and nothing projected. */
  function Committed(t: Table, now: Time, outbox: seq<SeatEvent>): System {
    System(World(t, now), outbox, {}, [], false, {}, map[], map[], {}, map[], [], {})
  }

  lemma CommitThen(t: Table, now: Time, outbox: seq<SeatEvent>, plan: Seating, step: Step, more: seq<SeatEvent>,
                   t': Table, now': Time,
                   ms: seq<Move>, s': System) returns (all: seq<Move>)
    requires Seated(t, plan) && WellFormed(step)
    requires Next(World(t, now), step) == World(t', now') && Emitted(World(t, now), step) == more && Seated(t', plan)
    requires Goes(Committed(t', now', outbox + more), plan, ms, s')
    ensures Goes(Committed(t, now, outbox), plan, all, s')
  {
    SeatsThen(Committed(t, now, outbox), plan, step, ms, s');
    all := [Seats(step)] + ms;
  }

  const HELD_TWICE := [SeatEvent(SeatHeld, KEPT_KEY), SeatEvent(SeatHeld, LOST_KEY)]
  const RETAKEN := HELD_TWICE + [SeatEvent(SeatHeld, LOST_KEY)]
  const ONCE_SOLD := RETAKEN + [SeatEvent(SeatBooked, LOST_KEY)]
  const FREED_TWICE := [SeatEvent(SeatReleased, KEPT_KEY), SeatEvent(SeatReleased, LOST_KEY)]
  const STALE := ONCE_SOLD + FREED_TWICE

  const TWO_PLAN: Seating := map[1 := [10, 11]]

  lemma TwoSeated(r10: Row, r11: Row)
    requires r10.ordinal == 0 && r11.ordinal == 1
    ensures Seated(TwoSeats(r10, r11), TWO_PLAN)
  {
  }

  /** The seats' rows at the end: one free again, one sold. */
  ghost predicate SoldAside(t: Table) {
    t.Keys == {KEPT_KEY, LOST_KEY} && Shows(t[LOST_KEY]) == SOLD
  }

  /** A run from here ends with the whole of the story applied, once and in order. */
  ghost predicate EndsStale(t: Table, now: Time, outbox: seq<SeatEvent>, ms: seq<Move>, s': System) {
    && Seated(t, TWO_PLAN) && Goes(Committed(t, now, outbox), TWO_PLAN, ms, s')
    && Drained(s') && s'.lost == {} && s'.applied == STALE && SoldAside(s'.w.table) && s'.outbox == STALE
  }

  lemma CommitStale(t: Table, now: Time, outbox: seq<SeatEvent>, step: Step, more: seq<SeatEvent>, t': Table, now': Time,
                    ms: seq<Move>, s': System) returns (all: seq<Move>)
    requires Seated(t, TWO_PLAN) && WellFormed(step)
    requires Next(World(t, now), step) == World(t', now') && Emitted(World(t, now), step) == more
    requires EndsStale(t', now', outbox + more, ms, s')
    ensures EndsStale(t, now, outbox, all, s')
  {
    all := CommitThen(t, now, outbox, TWO_PLAN, step, more, t', now', ms, s');
  }

  lemma TickIs(t: Table, now: Time, outbox: seq<SeatEvent>, dt: nat)
    ensures Next(World(t, now), Tick(dt)) == World(t, now + dt)
    ensures outbox + Emitted(World(t, now), Tick(dt)) == outbox
  {
  }

  lemma WaitStale(t: Table, now: Time, outbox: seq<SeatEvent>, later: Time, ms: seq<Move>, s': System)
    returns (all: seq<Move>)
    requires now <= later && EndsStale(t, later, outbox, ms, s')
    ensures EndsStale(t, now, outbox, all, s')
  {
    TickIs(t, now, outbox, later - now);
    all := CommitStale(t, now, outbox, Tick(later - now), Emitted(World(t, now), Tick(later - now)), t, later, ms, s');
  }

  lemma StaleDrained(t: Table, now: Time) returns (ms: seq<Move>, s': System)
    requires Seated(t, TWO_PLAN) && SoldAside(t)
    ensures EndsStale(t, now, STALE, ms, s')
  {
    ms, s' := DrainsInOrder(Committed(t, now, STALE), TWO_PLAN);
  }

  /** Released by the stale list, and projected. */
  lemma ReleaseRun(r10: Row, r11: Row, now: Time) returns (ms: seq<Move>, s': System)
    requires Releasable(r10, 7) && r11.status == BOOKED && r11.sellable && r10.ordinal == 0 && r11.ordinal == 1
    ensures EndsStale(TwoSeats(r10, r11), now, ONCE_SOLD, ms, s')
  {
    var t' := TwoSeats(FreedRow(r10), r11);
    TwoSeated(r10, r11);
    TwoSeated(FreedRow(r10), r11);
    BothReleased(r10, r11, now);
    var rest, end := StaleDrained(t', now);
    ms := CommitStale(TwoSeats(r10, r11), now, ONCE_SOLD, BOTH_RELEASED, FREED_TWICE, t', now, rest, end);
    s' := end;
  }

  lemma SoldRun(r10: Row, r11: Row, now: Time) returns (ms: seq<Move>, s': System)
    requires Releasable(r10, 7) && Confirmable(r11, 8, 2, now) && r11.sellable && r10.ordinal == 0 && r11.ordinal == 1
    ensures EndsStale(TwoSeats(r10, r11), now, RETAKEN, ms, s')
  {
    TwoSeated(r10, r11);
    OneSold(r10, r11, now);
    var rest, end := ReleaseRun(r10, BookedRow(r11, 3), now);
    ms := CommitStale(TwoSeats(r10, r11), now, RETAKEN, ONE_SOLD, [SeatEvent(SeatBooked, LOST_KEY)],
                      TwoSeats(r10, BookedRow(r11, 3)), now, rest, end);
    s' := end;
  }

  /** Taken over after its hold ran out, and sold. */
  lemma RetakeRun(r10: Row, r11: Row, now: Time) returns (ms: seq<Move>, s': System)
    requires Releasable(r10, 7) && r10.ordinal == 0 && r11.ordinal == 1
    requires OnHold(r11) && r11.sellable && r11.expires.Some? && r11.expires.value < now && r11.fence == 1
    ensures EndsStale(TwoSeats(r10, r11), now, HELD_TWICE, ms, s')
  {
    var retaken := HeldRow(r11, 8, "second", now + 600);
    TwoSeated(r10, r11);
    OneRetaken(r10, r11, now);
    var rest, end := SoldRun(r10, retaken, now);
    ms := CommitStale(TwoSeats(r10, r11), now, HELD_TWICE, ONE_RETAKEN, [SeatEvent(SeatHeld, LOST_KEY)],
                      TwoSeats(r10, retaken), now, rest, end);
    s' := end;
  }

  /** Held until the clock has passed the end of the hold. */
  lemma HeldRun(r10: Row, r11: Row, now: Time) returns (ms: seq<Move>, s': System)
    requires Releasable(r10, 7) && r10.ordinal == 0 && r11.ordinal == 1
    requires OnHold(r11) && r11.sellable && r11.expires == Some(now + 60) && r11.fence == 1
    ensures EndsStale(TwoSeats(r10, r11), now, HELD_TWICE, ms, s')
  {
    var later := now + 61;
    ms, s' := RetakeRun(r10, r11, later);
    ms := WaitStale(TwoSeats(r10, r11), now, HELD_TWICE, later, ms, s');
  }

  lemma StaleRun(r10: Row, r11: Row, now: Time) returns (ms: seq<Move>, s': System)
    requires FreeSeat(r10, 0) && FreeSeat(r11, 1)
    ensures EndsStale(TwoSeats(r10, r11), now, [], ms, s')
  {
    var h10, h11 := HeldRow(r10, 7, "first", now + 60), HeldRow(r11, 7, "first", now + 60);
    TwoSeated(r10, r11);
    BothHeld(r10, r11, now);
    var waited, end := HeldRun(h10, h11, now);
    assert [] + HELD_TWICE == HELD_TWICE;
    ms := CommitStale(TwoSeats(r10, r11), now, [], BOTH_HELD, HELD_TWICE, TwoSeats(h10, h11), now, waited, end);
    s' := end;
  }

  /** From a published event: two seats are held, the hold runs out, one of them is taken
      over and sold, and the first holder's list of both is released. With every event
      applied once and in order, the sold seat is displayed as free. */
  lemma StaleReleaseHidesSale(r10: Row, r11: Row, now: Time) returns (ms: seq<Move>)
    requires FreeSeat(r10, 0) && FreeSeat(r11, 1)
    ensures var s := Published(TwoSeats(r10, r11), now);
            && AtRest(s, TWO_PLAN) && Legal(s, TWO_PLAN, ms)
            && var s' := Moves(s, TWO_PLAN, ms);
               Drained(s') && s'.applied == s'.outbox && HasBitset(s', LOST_KEY)
               && Displays(s', LOST_KEY, FREE) && Shows(s'.w.table[LOST_KEY]) == SOLD
  {
    TwoSeated(r10, r11);
    var t := TwoSeats(r10, r11);
    FreshIsAtRest(t, TWO_PLAN, now);
    var end;
    ms, end := StaleRun(r10, r11, now);
    RestIsLogged(Published(t, now), TWO_PLAN);
    MovesStayLogged(Published(t, now), TWO_PLAN, ms);
    StaleShown(end, TWO_PLAN);
  }

  lemma StaleShown(s: System, plan: Seating)
    requires Logged(s, plan) && Drained(s) && s.lost == {} && s.applied == STALE && SoldAside(s.w.table)
        && s.outbox == STALE && s.before == {}
    ensures HasBitset(s, LOST_KEY) && Displays(s, LOST_KEY, FREE)
  {
    assert s.outbox[5].key == LOST_KEY;
    DoneWithIsApplied(s, plan, LOST_KEY);
    LastAboutIs(s.applied, 5, LOST_KEY);
    assert Written(s.store, s.base, s.applied, LOST_KEY, s.w.table[LOST_KEY].ordinal);
  }
}
