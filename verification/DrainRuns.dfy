/** Every run of the path from the seat table to the bitset: what a bitset shows at
    any moment, and exactly when that is what the table says. */
module DrainRuns {
  import opened Bytes
  import opened Wrappers
  import opened Seatmap
  import opened ReadModel
  import opened EventSeats
  import opened Fencing
  import opened Drain
  import Projector

  // ---- Histories ----

  ghost predicate Legal(s: System, plan: Seating, ms: seq<Move>)
    requires Fits(s, plan)
    decreases |ms|
  {
    ms == [] || (Enabled(s, plan, ms[0]) && Legal(Move1(s, plan, ms[0]), plan, ms[1..]))
  }

  ghost function Moves(s: System, plan: Seating, ms: seq<Move>): (s': System)
    requires Fits(s, plan) && Legal(s, plan, ms)
    ensures Fits(s', plan)
    decreases |ms|
  {
    if ms == [] then s else Moves(Move1(s, plan, ms[0]), plan, ms[1..])
  }

  // ---- What a bitset shows, honest or not ----

  /** The state the last event about a seat gives it. */
  function LastAbout(evts: seq<SeatEvent>, k: Key): Option<State> {
    if evts == [] then None
    else if evts[|evts| - 1].key == k then Some(StateOf(evts[|evts| - 1].kind))
    else LastAbout(evts[..|evts| - 1], k)
  }

  lemma {:induction false} LastAboutAppend(evts: seq<SeatEvent>, more: seq<SeatEvent>, k: Key)
    ensures LastAbout(evts + more, k) == if LastAbout(more, k).Some? then LastAbout(more, k) else LastAbout(evts, k)
  {
    if more == [] {
      assert evts + more == evts;
    } else {
      var init := more[..|more| - 1];
      assert (evts + more)[..|evts + more| - 1] == evts + init;
      LastAboutAppend(evts, init, k);
    }
  }

  /** It is the state of the event at i when none after it is about the seat. */
  lemma {:induction false} LastAboutIs(evts: seq<SeatEvent>, i: nat, k: Key)
    requires i < |evts| && evts[i].key == k && forall j | i < j < |evts| :: evts[j].key != k
    ensures LastAbout(evts, k) == Some(StateOf(evts[i].kind))
  {
    if i < |evts| - 1 { LastAboutIs(evts[..|evts| - 1], i, k); }
  }

  lemma {:induction false} LastAboutFrom(evts: seq<SeatEvent>, k: Key) returns (i: nat)
    requires LastAbout(evts, k).Some?
    ensures i < |evts| && evts[i].key == k && LastAbout(evts, k) == Some(StateOf(evts[i].kind))
  {
    i := |evts| - 1;
    if evts[i].key != k { i := LastAboutFrom(evts[..i], k); }
  }

  /** The state of the last event applied to the seat since the history began, or else
      the one its bitset first had. */
  function Shown(base: map<int, seq<u8>>, applied: seq<SeatEvent>, k: Key, ordinal: nat): State
    requires k.event in base && ordinal / 4 < |base[k.event]|
  {
    match LastAbout(applied, k)
    case Some(st) => st
    case None => Get(base[k.event], ordinal)
  }

  ghost predicate Written(store: Projector.Store, base: map<int, seq<u8>>, applied: seq<SeatEvent>, k: Key,
                          ordinal: nat) {
    if k.event in store then
      && k.event in base && |base[k.event]| == |store[k.event].bits| && ordinal / 4 < |base[k.event]|
      && Get(store[k.event].bits, ordinal) == Shown(base, applied, k, ordinal)
    else LastAbout(applied, k).None?
  }

  ghost predicate AllWritten(t: Table, store: Projector.Store, base: map<int, seq<u8>>, applied: seq<SeatEvent>) {
    && base.Keys == store.Keys
    && forall k | k in t :: Written(store, base, applied, k, t[k].ordinal)
  }

  /** Row i has been dealt with: its event applied, unless it names no seat or was lost. */
  ghost predicate Dealt(t: Table, outbox: seq<SeatEvent>, applied: seq<SeatEvent>, lost: set<nat>, i: nat) {
    i < |outbox| && (outbox[i].key in t ==> LastAbout(applied, outbox[i].key).Some? || i in lost)
  }

  ghost predicate BatchLogged(s: System) {
    && s.before <= s.processed
    && (forall m | 0 <= m < |s.batch| :: s.batch[m] !in s.processed)
    && (forall m, m' | 0 <= m < m' < |s.batch| :: s.batch[m] != s.batch[m'])
    && (forall i | i in s.processed && i !in s.before :: Dealt(s.w.table, s.outbox, s.applied, s.lost, i))
    && (s.inFlight ==> s.batch != [] && Dealt(s.w.table, s.outbox, s.applied, s.lost, s.batch[0]))
  }

  ghost predicate Fresh(outbox: seq<SeatEvent>, before: set<nat>, evt: SeatEvent) {
    exists i :: 0 <= i < |outbox| && i !in before && outbox[i] == evt
  }

  /** Applied events are events of rows that had no mark when the history began. */
  ghost predicate AppliedListed(outbox: seq<SeatEvent>, before: set<nat>, applied: seq<SeatEvent>) {
    && (forall i | i in before :: i < |outbox|)
    && forall j | 0 <= j < |applied| :: Fresh(outbox, before, applied[j])
  }

  ghost predicate Logged(s: System, plan: Seating) {
    Fits(s, plan) && AllWritten(s.w.table, s.store, s.base, s.applied) && BatchLogged(s)
    && AppliedListed(s.outbox, s.before, s.applied)
  }

  lemma AppliedShows(c: Cache, d: Delta, o: nat)
    requires InRange(c.bits, d.ordinal) && o / 4 < |c.bits|
    ensures Get(Applied(c, d).0.bits, o) == if o == d.ordinal then d.state else Get(c.bits, o)
  {
    WriteGet(c.bits, d.ordinal, d.state, o);
  }

  lemma SeatsKeepsLayout(w: World, step: Step)
    requires WellFormed(step)
    ensures Next(w, step).table.Keys == w.table.Keys
    ensures forall k | k in w.table :: Next(w, step).table[k].ordinal == w.table[k].ordinal
  {
    forall k | k in w.table ensures Next(w, step).table[k].ordinal == w.table[k].ordinal {
      if DeedOf(w, step, k).Some? { ListedChanges(w, step, k); } else { UnlistedUnchanged(w, step, k); }
    }
  }

  lemma FreshStays(outbox: seq<SeatEvent>, more: seq<SeatEvent>, before: set<nat>, applied: seq<SeatEvent>)
    requires AppliedListed(outbox, before, applied)
    ensures AppliedListed(outbox + more, before, applied)
  {
    forall j | 0 <= j < |applied| ensures Fresh(outbox + more, before, applied[j]) {
      assert Fresh(outbox, before, applied[j]);
      var i :| 0 <= i < |outbox| && i !in before && outbox[i] == applied[j];
      assert (outbox + more)[i] == applied[j];
    }
  }

  lemma SeatsStaysLogged(s: System, plan: Seating, step: Step)
    requires Logged(s, plan) && WellFormed(step)
    ensures Logged(Move1(s, plan, Seats(step)), plan)
  {
    SeatsKeepsLayout(s.w, step);
    FreshStays(s.outbox, Emitted(s.w, step), s.before, s.applied);
  }

  /** A new bitset is first what it is seeded with. */
  lemma SeedWritten(t: Table, store: Projector.Store, base: map<int, seq<u8>>, applied: seq<SeatEvent>, plan: Seating,
                    e: int, rows: seq<Projector.SeatRow>)
    requires Seated(t, plan) && CachesFit(store, plan) && AllWritten(t, store, base, applied)
    requires e in plan && Projector.Dense(rows) && |rows| == |plan[e]|
    ensures var st := Projector.Ensured(store, e, rows); AllWritten(t, st, Noted(base, st), applied)
  {
    var st := Projector.Ensured(store, e, rows);
    forall k | k in t ensures Written(st, Noted(base, st), applied, k, t[k].ordinal) {
      assert Written(store, base, applied, k, t[k].ordinal);
    }
  }

  /** One write: the written seat shows the event's state, every other what it did. */
  lemma WriteWritten(t: Table, store: Projector.Store, base: map<int, seq<u8>>, applied: seq<SeatEvent>,
                     plan: Seating, evt: SeatEvent, c: Cache)
    requires Seated(t, plan) && AllWritten(t, store, base, applied)
    requires evt.key in t && evt.key.event in store && InRange(store[evt.key.event].bits, t[evt.key].ordinal)
    requires c == Applied(store[evt.key.event], Delta(t[evt.key].ordinal, StateOf(evt.kind))).0
    ensures AllWritten(t, store[evt.key.event := c], base, applied + [evt])
  {
    var e := evt.key.event;
    forall k | k in t ensures Written(store[e := c], base, applied + [evt], k, t[k].ordinal) {
      assert Written(store, base, applied, k, t[k].ordinal);
      LastAboutAppend(applied, [evt], k);
      if k.event == e {
        assert plan[e][t[k].ordinal] == k.seat && plan[e][t[evt.key].ordinal] == evt.key.seat;
        AppliedShows(store[e], Delta(t[evt.key].ordinal, StateOf(evt.kind)), t[k].ordinal);
      }
    }
  }

  lemma ApplyWritten(s: System, plan: Seating, evt: SeatEvent)
    requires Seated(s.w.table, plan) && CachesFit(s.store, plan) && AllWritten(s.w.table, s.store, s.base, s.applied)
    ensures AllWritten(s.w.table, ApplyEvent(s.store, s.w.table, plan, evt).0,
                       Noted(s.base, Seeded(s.store, s.w.table, plan, evt)),
                       if evt.key in s.w.table then s.applied + [evt] else s.applied)
  {
    if evt.key in s.w.table {
      var e := evt.key.event;
      var st := Seeded(s.store, s.w.table, plan, evt);
      SeedWritten(s.w.table, s.store, s.base, s.applied, plan, e, Rows(s.w.table, plan, e));
      WriteWritten(s.w.table, st, Noted(s.base, st), s.applied, plan, evt,
                   ApplyEvent(s.store, s.w.table, plan, evt).0[e]);
    } else {
      assert Noted(s.base, s.store) == s.base;
    }
  }

  lemma ApplyDealt(t: Table, outbox: seq<SeatEvent>, applied: seq<SeatEvent>, lost: set<nat>, i: nat)
    requires i < |outbox|
    ensures var applied' := if outbox[i].key in t then applied + [outbox[i]] else applied;
            Dealt(t, outbox, applied', lost, i)
            && forall j: nat | Dealt(t, outbox, applied, lost, j) :: Dealt(t, outbox, applied', lost, j)
  {
    forall j: nat | j < |outbox| && (j == i || Dealt(t, outbox, applied, lost, j))
      ensures Dealt(t, outbox, if outbox[i].key in t then applied + [outbox[i]] else applied, lost, j)
    {
      LastAboutAppend(applied, [outbox[i]], outbox[j].key);
    }
  }

  lemma ApplyListed(outbox: seq<SeatEvent>, before: set<nat>, applied: seq<SeatEvent>, i: nat)
    requires AppliedListed(outbox, before, applied) && i < |outbox| && i !in before
    ensures AppliedListed(outbox, before, applied + [outbox[i]])
  {
    assert Fresh(outbox, before, outbox[i]);
    assert forall j | 0 <= j < |applied| :: (applied + [outbox[i]])[j] == applied[j];
  }

  lemma ApplyStaysLogged(s: System, plan: Seating)
    requires Logged(s, plan) && Enabled(s, plan, ApplyNext)
    ensures Logged(Move1(s, plan, ApplyNext), plan)
  {
    ApplyWritten(s, plan, s.outbox[s.batch[0]]);
    ApplyDealt(s.w.table, s.outbox, s.applied, s.lost, s.batch[0]);
    ApplyListed(s.outbox, s.before, s.applied, s.batch[0]);
  }

  lemma OtherStaysLogged(s: System, plan: Seating, m: Move)
    requires Logged(s, plan) && Enabled(s, plan, m) && !m.Seats? && !m.Install? && !m.ApplyNext?
    ensures Logged(Move1(s, plan, m), plan)
  {
    if m.LoseNext? {
      var lost' := s.lost + {s.batch[0]};
      assert forall i: nat :: Dealt(s.w.table, s.outbox, s.applied, s.lost, i) ==> Dealt(s.w.table, s.outbox, s.applied, lost', i);
    }
  }

  lemma MoveStaysLogged(s: System, plan: Seating, m: Move)
    requires Logged(s, plan) && Enabled(s, plan, m)
    ensures Logged(Move1(s, plan, m), plan)
  {
    match m
    case Seats(step) => SeatsStaysLogged(s, plan, step);
    case Install(p) => SeedWritten(s.w.table, s.store, s.base, s.applied, plan, s.scans[p].event, s.scans[p].rows);
    case ApplyNext => ApplyStaysLogged(s, plan);
    case _ => OtherStaysLogged(s, plan, m);
  }

  // ---- What the outbox says about the table ----

  /** A release that matched something freed, or found already free, every seat it lists. */
  ghost predicate Honest(t: Table, step: Step) {
    step.Release? && ReleaseCount(t, step.event, step.seats, step.hold) > 0 ==>
      forall seat | seat in step.seats && Key(step.event, seat) in t ::
        var r := t[Key(step.event, seat)];
        Releasable(r, step.hold) || (r.status == AVAILABLE && r.sellable)
  }

  ghost predicate HonestAll(s: System, plan: Seating, ms: seq<Move>)
    requires Fits(s, plan) && Legal(s, plan, ms)
    decreases |ms|
  {
    ms == [] || ((ms[0].Seats? ==> Honest(s.w.table, ms[0].step)) && HonestAll(Move1(s, plan, ms[0]), plan, ms[1..]))
  }

  ghost predicate HeldIsSellable(t: Table) {
    forall k | k in t :: OnHold(t[k]) ==> t[k].sellable
  }

  lemma StepKeepsSellable(w: World, step: Step)
    requires WellFormed(step) && HeldIsSellable(w.table)
    ensures HeldIsSellable(Next(w, step).table)
  {
    forall k | k in Next(w, step).table ensures OnHold(Next(w, step).table[k]) ==> Next(w, step).table[k].sellable {
      assert k in w.table;
      if DeedOf(w, step, k).Some? { ListedChanges(w, step, k); } else { UnlistedUnchanged(w, step, k); }
    }
  }

  lemma {:induction false} EventsAnnounce(kind: Kind, event: int, seats: seq<int>, k: Key)
    ensures LastAbout(EventsFor(kind, event, seats), k) == if Listed(k, event, seats) then Some(StateOf(kind)) else None
  {
    if seats != [] {
      var init := seats[..|seats| - 1];
      var es := EventsFor(kind, event, seats);
      assert es[..|es| - 1] == EventsFor(kind, event, init);
      EventsAnnounce(kind, event, init, k);
      assert seats == init + [seats[|seats| - 1]];
      assert es[|es| - 1].key == k <==> k.event == event && k.seat == seats[|seats| - 1];
    }
  }

  /** What an honest step announces for a seat is what the row then shows, and a
      seat not announced shows what it did. */
  lemma StepAnnounces(w: World, step: Step, k: Key)
    requires WellFormed(step) && HeldIsSellable(w.table) && Honest(w.table, step) && k in w.table
    ensures k in Next(w, step).table
    ensures HeldIsSellable(Next(w, step).table)
    ensures Shows(Next(w, step).table[k]) == if LastAbout(Emitted(w, step), k).Some? then LastAbout(Emitted(w, step), k).value
                                             else Shows(w.table[k])
  {
    StepKeepsSellable(w, step);
    var r, r' := w.table[k], Next(w, step).table[k];
    if DeedOf(w, step, k).Some? { ListedChanges(w, step, k); } else { UnlistedUnchanged(w, step, k); }
    match step
    case Acquire(event, seats, _, _, _) =>
      if AcquireCount(w.table, event, seats, w.now) == |seats| { EventsAnnounce(SeatHeld, event, seats, k); }
    case Release(event, seats, hold) =>
      ReleaseAny(w.table, event, seats, hold);
      if ReleaseCount(w.table, event, seats, hold) > 0 {
        EventsAnnounce(SeatReleased, event, seats, k);
        if Listed(k, event, seats) { assert k == Key(event, k.seat); }
      }
    case Confirm(event, seats, fences, hold, _) =>
      if ConfirmCount(w.table, event, seats, fences, hold, w.now) == |seats| { EventsAnnounce(SeatBooked, event, seats, k); }
    case _ =>
  }

  /** Some row about the seat had no mark when the history began. */
  ghost predicate Touched(outbox: seq<SeatEvent>, before: set<nat>, k: Key) {
    exists i :: 0 <= i < |outbox| && i !in before && outbox[i].key == k
  }

  ghost predicate RowShows(rows: seq<Projector.SeatRow>, i: nat, st: State) {
    i < |rows| && StateFromDB(rows[i].status, rows[i].sellable) == st
  }

  /** The event's bitset, if there is one, started with st for the seat; if there is
      none, every scan of its rows shows st. */
  ghost predicate StartedAs(base: map<int, seq<u8>>, scans: map<nat, Scan>, k: Key, ordinal: nat, st: State) {
    if k.event in base then ordinal / 4 < |base[k.event]| && Get(base[k.event], ordinal) == st
    else forall p | p in scans && scans[p].event == k.event :: RowShows(scans[p].rows, ordinal, st)
  }

  /** The last event about a touched seat says what its row shows; bitsets and scans
      started with what the rows of the others show. */
  ghost predicate SeatTruthful(s: System, k: Key)
    requires k in s.w.table
  {
    if Touched(s.outbox, s.before, k) then LastAbout(s.outbox, k) == Some(Shows(s.w.table[k]))
    else StartedAs(s.base, s.scans, k, s.w.table[k].ordinal, Shows(s.w.table[k]))
  }

  ghost predicate Truthful(s: System) {
    && HeldIsSellable(s.w.table)
    && forall k | k in s.w.table :: SeatTruthful(s, k)
  }

  lemma {:induction false} LastAboutNone(evts: seq<SeatEvent>, k: Key)
    ensures LastAbout(evts, k).None? <==> forall i | 0 <= i < |evts| :: evts[i].key != k
  {
    if evts != [] { LastAboutNone(evts[..|evts| - 1], k); }
  }

  /** New rows touch exactly the seats they are about. */
  lemma NewTouches(outbox: seq<SeatEvent>, more: seq<SeatEvent>, before: set<nat>, k: Key)
    requires forall i | i in before :: i < |outbox|
    ensures Touched(outbox + more, before, k) <==> Touched(outbox, before, k) || LastAbout(more, k).Some?
  {
    LastAboutNone(more, k);
    var all := outbox + more;
    if LastAbout(more, k).Some? {
      var i :| 0 <= i < |more| && more[i].key == k;
      assert all[|outbox| + i].key == k;
    }
    if i :| 0 <= i < |outbox| && i !in before && outbox[i].key == k { assert all[i].key == k; }
    if i :| 0 <= i < |all| && i !in before && all[i].key == k { assert i < |outbox| || more[i - |outbox|].key == k; }
  }

  lemma SeatsStaysTruthful(s: System, plan: Seating, step: Step)
    requires Logged(s, plan) && Truthful(s) && WellFormed(step) && Honest(s.w.table, step)
    ensures Truthful(Move1(s, plan, Seats(step)))
  {
    var s', more := Move1(s, plan, Seats(step)), Emitted(s.w, step);
    SeatsKeepsLayout(s.w, step);
    StepKeepsSellable(s.w, step);
    forall k | k in s'.w.table ensures SeatTruthful(s', k) {
      assert SeatTruthful(s, k);
      StepAnnounces(s.w, step, k);
      LastAboutAppend(s.outbox, more, k);
      NewTouches(s.outbox, more, s.before, k);
    }
  }

  lemma EnsuredShows(store: Projector.Store, e: int, rows: seq<Projector.SeatRow>, o: nat)
    requires Projector.Dense(rows) && o < |rows| && e !in store
    ensures o / 4 < |Projector.Ensured(store, e, rows)[e].bits|
    ensures Get(Projector.Ensured(store, e, rows)[e].bits, o) == StateFromDB(rows[o].status, rows[o].sellable)
  {
    Projector.SeededShowsTable(rows, |rows|, o);
  }

  lemma RowsShow(t: Table, plan: Seating, k: Key)
    requires Seated(t, plan) && k in t
    ensures k.event in plan && RowShows(Rows(t, plan, k.event), t[k].ordinal, Shows(t[k]))
  {
    assert k == Key(k.event, plan[k.event][t[k].ordinal]);
  }

  /** A bitset seeded from rows that show st starts as st. */
  lemma SeedStarts(store: Projector.Store, base: map<int, seq<u8>>, scans: map<nat, Scan>, e: int,
                   rows: seq<Projector.SeatRow>,
                   k: Key, ordinal: nat, st: State)
    requires base.Keys == store.Keys && Projector.Dense(rows)
    requires StartedAs(base, scans, k, ordinal, st)
    requires e == k.event && e !in store ==> RowShows(rows, ordinal, st)
    ensures StartedAs(Noted(base, Projector.Ensured(store, e, rows)), scans, k, ordinal, st)
  {
    if e == k.event && e !in store { EnsuredShows(store, e, rows, ordinal); }
  }

  lemma SameStart(base: map<int, seq<u8>>, store: Projector.Store)
    requires base.Keys == store.Keys
    ensures Noted(base, store) == base
  {
  }

  lemma MoveStarts(s: System, plan: Seating, m: Move, k: Key)
    requires Fits(s, plan) && s.base.Keys == s.store.Keys && Enabled(s, plan, m) && !m.Seats? && k in s.w.table
    requires StartedAs(s.base, s.scans, k, s.w.table[k].ordinal, Shows(s.w.table[k]))
    ensures var s' := Move1(s, plan, m); StartedAs(s'.base, s'.scans, k, s.w.table[k].ordinal, Shows(s.w.table[k]))
  {
    var t := s.w.table;
    match m
    case Look(_, _) => RowsShow(t, plan, k);
    case Install(p) =>
      SeedStarts(s.store, s.base, s.scans, s.scans[p].event, s.scans[p].rows, k, t[k].ordinal, Shows(t[k]));
    case ApplyNext =>
      var evt := s.outbox[s.batch[0]];
      if evt.key in t {
        RowsShow(t, plan, k);
        SeedStarts(s.store, s.base, s.scans, evt.key.event, Rows(t, plan, evt.key.event), k, t[k].ordinal, Shows(t[k]));
      } else {
        SameStart(s.base, s.store);
      }
    case _ =>
  }

  lemma MoveStaysTruthful(s: System, plan: Seating, m: Move)
    requires Logged(s, plan) && Truthful(s) && Enabled(s, plan, m)
    requires m.Seats? ==> Honest(s.w.table, m.step)
    ensures Truthful(Move1(s, plan, m))
  {
    if m.Seats? {
      SeatsStaysTruthful(s, plan, m.step);
    } else {
      forall k | k in s.w.table ensures SeatTruthful(Move1(s, plan, m), k) {
        assert SeatTruthful(s, k);
        if !Touched(s.outbox, s.before, k) { MoveStarts(s, plan, m, k); }
      }
    }
  }

  // ---- Every history ----

  /** The start of a history: nothing listed, every bitset and scan right about the seats
      with no row left to process, the outbox right about the others. */
  ghost predicate AtRest(s: System, plan: Seating) {
    && Fits(s, plan) && s.batch == [] && !s.inFlight && s.applied == [] && s.lost == {}
    && s.before == s.processed && (forall i | i in s.processed :: i < |s.outbox|)
    && s.base == (map e | e in s.store :: s.store[e].bits)
    && Truthful(s)
  }

  lemma RestIsLogged(s: System, plan: Seating)
    requires AtRest(s, plan)
    ensures Logged(s, plan)
  {
  }

  lemma {:induction false} MovesStayLogged(s: System, plan: Seating, ms: seq<Move>)
    requires Logged(s, plan) && Legal(s, plan, ms)
    ensures Logged(Moves(s, plan, ms), plan)
    ensures Moves(s, plan, ms).before == s.before
    decreases |ms|
  {
    if ms != [] {
      MoveStaysLogged(s, plan, ms[0]);
      MovesStayLogged(Move1(s, plan, ms[0]), plan, ms[1..]);
    }
  }

  lemma {:induction false} MovesStayTruthful(s: System, plan: Seating, ms: seq<Move>)
    requires Logged(s, plan) && Truthful(s) && Legal(s, plan, ms) && HonestAll(s, plan, ms)
    ensures Logged(Moves(s, plan, ms), plan) && Truthful(Moves(s, plan, ms))
    decreases |ms|
  {
    if ms != [] {
      MoveStaysLogged(s, plan, ms[0]);
      MoveStaysTruthful(s, plan, ms[0]);
      MovesStayTruthful(Move1(s, plan, ms[0]), plan, ms[1..]);
    }
  }

  /** The bitset's state of a seat. */
  ghost predicate Displays(s: System, k: Key, st: State)
    requires k in s.w.table && k.event in s.store && s.w.table[k].ordinal / 4 < |s.store[k.event].bits|
  {
    Get(s.store[k.event].bits, s.w.table[k].ordinal) == st
  }

  ghost predicate HasBitset(s: System, k: Key) {
    && k in s.w.table && k.event in s.store && s.w.table[k].ordinal / 4 < |s.store[k.event].bits|
    && k.event in s.base && s.w.table[k].ordinal / 4 < |s.base[k.event]|
  }

  /** Through any history at all a bitset shows, seat by seat, the last event applied or
      else what it was seeded with. */
  lemma BitsetShowsApplied(s: System, plan: Seating, ms: seq<Move>, k: Key)
    requires AtRest(s, plan) && Legal(s, plan, ms)
    ensures var s' := Moves(s, plan, ms);
            k in s'.w.table && k.event in s'.store ==>
              HasBitset(s', k) && Displays(s', k, Shown(s'.base, s'.applied, k, s'.w.table[k].ordinal))
  {
    RestIsLogged(s, plan);
    MovesStayLogged(s, plan, ms);
    var s' := Moves(s, plan, ms);
    if k in s'.w.table { assert Written(s'.store, s'.base, s'.applied, k, s'.w.table[k].ordinal); }
  }

  /** A seat is displayed as its row exactly when it has had no row to process, or what
      was last applied to it, or else seeded, is what its last row announces. */
  ghost predicate RowShownIff(s: System, k: Key) {
    k in s.w.table && k.event in s.store ==>
      && HasBitset(s, k)
      && (Displays(s, k, Shows(s.w.table[k]))
          <==> !Touched(s.outbox, s.before, k)
               || LastAbout(s.outbox, k) == Some(Shown(s.base, s.applied, k, s.w.table[k].ordinal)))
  }

  lemma TruthfulShows(s: System, plan: Seating, k: Key)
    requires Logged(s, plan) && Truthful(s)
    ensures RowShownIff(s, k)
  {
    if k in s.w.table && k.event in s.store {
      assert SeatTruthful(s, k);
      assert Written(s.store, s.base, s.applied, k, s.w.table[k].ordinal);
      if LastAbout(s.applied, k).Some? { AppliedIsTouched(s.outbox, s.before, s.applied, k); }
    }
  }

  /** Through any honest history, failing marks, failing loads and crashes included. */
  lemma DisplaysRowIff(s: System, plan: Seating, ms: seq<Move>, k: Key)
    requires AtRest(s, plan) && Legal(s, plan, ms) && HonestAll(s, plan, ms)
    ensures RowShownIff(Moves(s, plan, ms), k)
  {
    RestIsLogged(s, plan);
    MovesStayTruthful(s, plan, ms);
    TruthfulShows(Moves(s, plan, ms), plan, k);
  }

  lemma AppliedIsTouched(outbox: seq<SeatEvent>, before: set<nat>, applied: seq<SeatEvent>, k: Key)
    requires AppliedListed(outbox, before, applied) && LastAbout(applied, k).Some?
    ensures Touched(outbox, before, k)
  {
    var j := LastAboutFrom(applied, k);
    assert Fresh(outbox, before, applied[j]);
  }

  /** Nothing left to process for the seat, and none of its rows lost. */
  ghost predicate DoneWith(s: System, k: Key) {
    forall i | 0 <= i < |s.outbox| && s.outbox[i].key == k :: i in s.processed && i !in s.lost
  }

  ghost predicate Drained(s: System) {
    forall i | 0 <= i < |s.outbox| :: i in s.processed
  }

  lemma DoneWithIsApplied(s: System, plan: Seating, k: Key)
    requires Logged(s, plan) && k in s.w.table && DoneWith(s, k) && Touched(s.outbox, s.before, k)
    ensures LastAbout(s.applied, k).Some? && k.event in s.store
  {
    var i :| 0 <= i < |s.outbox| && i !in s.before && s.outbox[i].key == k;
    assert Dealt(s.w.table, s.outbox, s.applied, s.lost, i);
    assert Written(s.store, s.base, s.applied, k, s.w.table[k].ordinal);
  }

  /** Marks may fail: once nothing is left to process, a seat is displayed as its row
      exactly when the last event applied to it is the last one announced. */
  lemma DrainedShowsTableIff(s: System, plan: Seating, ms: seq<Move>, k: Key)
    requires AtRest(s, plan) && Legal(s, plan, ms) && HonestAll(s, plan, ms)
    requires var s' := Moves(s, plan, ms); k in s'.w.table && DoneWith(s', k) && Touched(s'.outbox, s'.before, k)
    ensures var s' := Moves(s, plan, ms);
            HasBitset(s', k)
            && (Displays(s', k, Shows(s'.w.table[k])) <==> LastAbout(s'.applied, k) == LastAbout(s'.outbox, k))
  {
    RestIsLogged(s, plan);
    MovesStayTruthful(s, plan, ms);
    DoneWithIsApplied(Moves(s, plan, ms), plan, k);
    TruthfulShows(Moves(s, plan, ms), plan, k);
  }

  // ---- Histories in which every mark succeeds ----

  ghost predicate Untroubled(ms: seq<Move>) {
    forall i | 0 <= i < |ms| :: !ms[i].LoseNext? && ms[i] != MarkNext(true)
  }

  /** No marked row of a seat follows an unmarked one. */
  ghost predicate InOrder(outbox: seq<SeatEvent>, processed: set<nat>) {
    forall i, j | 0 <= i < j < |outbox| && outbox[i].key == outbox[j].key && j in processed :: i in processed
  }

  ghost predicate Earlier(batch: seq<nat>, processed: set<nat>, m: nat, i: nat) {
    i in processed || exists m' :: 0 <= m' < m && m' < |batch| && batch[m'] == i
  }

  /** A batch lists the first unmarked rows, in order. */
  ghost predicate BatchFirst(batch: seq<nat>, processed: set<nat>) {
    forall m, i: nat | 0 <= m < |batch| && i < batch[m] :: Earlier(batch, processed, m, i)
  }

  ghost predicate AllMarked(outbox: seq<SeatEvent>, processed: set<nat>, k: Key) {
    forall i | 0 <= i < |outbox| && outbox[i].key == k :: i in processed
  }

  /** With nothing of the seat left, the last event applied is the last announced. */
  ghost predicate CaughtUpOn(outbox: seq<SeatEvent>, processed: set<nat>, applied: seq<SeatEvent>, k: Key) {
    AllMarked(outbox, processed, k) && LastAbout(applied, k).Some? ==> LastAbout(applied, k) == LastAbout(outbox, k)
  }

  ghost predicate Orderly(s: System) {
    && s.lost == {} && InOrder(s.outbox, s.processed) && BatchFirst(s.batch, s.processed)
    && (forall k | k in s.w.table :: CaughtUpOn(s.outbox, s.processed, s.applied, k))
    && (s.inFlight && s.batch != [] && s.batch[0] < |s.outbox| && s.outbox[s.batch[0]].key in s.w.table ==>
          LastAbout(s.applied, s.outbox[s.batch[0]].key) == Some(StateOf(s.outbox[s.batch[0]].kind)))
  }

  lemma ListingFirst(n: nat, processed: set<nat>, limit: nat)
    ensures BatchFirst(NextRows(n, processed, limit), processed)
  {
    var all, r := Unprocessed(n, processed), NextRows(n, processed, limit);
    forall m, i: nat | 0 <= m < |r| && i < r[m] ensures Earlier(r, processed, m, i) {
      if i !in processed {
        UnprocessedLists(n, processed, i);
        var m' :| 0 <= m' < |all| && all[m'] == i;
        assert m' < m && r[m'] == i;
      }
    }
  }

  lemma NewRowsCaughtUp(outbox: seq<SeatEvent>, more: seq<SeatEvent>, processed: set<nat>, applied: seq<SeatEvent>,
                        k: Key)
    requires CaughtUpOn(outbox, processed, applied, k) && forall i | i in processed :: i < |outbox|
    ensures CaughtUpOn(outbox + more, processed, applied, k)
  {
    if AllMarked(outbox + more, processed, k) {
      assert forall i | 0 <= i < |outbox| :: (outbox + more)[i] == outbox[i];
      assert forall i | 0 <= i < |more| :: (outbox + more)[|outbox| + i] == more[i];
      LastAboutNone(more, k);
      LastAboutAppend(outbox, more, k);
    }
  }

  lemma MarkCaughtUp(outbox: seq<SeatEvent>, processed: set<nat>, applied: seq<SeatEvent>, i: nat, k: Key)
    requires i < |outbox| && i !in processed && InOrder(outbox, processed) && CaughtUpOn(outbox, processed, applied, k)
    requires outbox[i].key == k ==> LastAbout(applied, k) == Some(StateOf(outbox[i].kind))
    ensures CaughtUpOn(outbox, processed + {i}, applied, k)
  {
    if outbox[i].key == k {
      if AllMarked(outbox, processed + {i}, k) {
        LastAboutIs(outbox, i, k);
      }
    } else if AllMarked(outbox, processed + {i}, k) {
      assert AllMarked(outbox, processed, k);
    }
  }

  lemma MarkKeepsFirst(batch: seq<nat>, processed: set<nat>)
    requires batch != [] && BatchFirst(batch, processed)
    ensures BatchFirst(batch[1..], processed + {batch[0]})
  {
    var rest, p' := batch[1..], processed + {batch[0]};
    forall m, i: nat | 0 <= m < |rest| && i < rest[m] ensures Earlier(rest, p', m, i) {
      assert Earlier(batch, processed, m + 1, i);
      if i !in p' {
        var m' :| 0 <= m' < m + 1 && m' < |batch| && batch[m'] == i;
        assert rest[m' - 1] == i;
      }
    }
  }

  lemma MarkKeepsOrder(outbox: seq<SeatEvent>, processed: set<nat>, batch: seq<nat>)
    requires batch != [] && BatchFirst(batch, processed) && InOrder(outbox, processed)
    ensures InOrder(outbox, processed + {batch[0]})
  {
    forall i: nat | i < batch[0] ensures i in processed { assert Earlier(batch, processed, 0, i); }
  }

  lemma MarkStaysOrderly(s: System, plan: Seating)
    requires Logged(s, plan) && Orderly(s) && Enabled(s, plan, MarkNext(false))
    ensures Orderly(Move1(s, plan, MarkNext(false)))
  {
    MarkKeepsFirst(s.batch, s.processed);
    MarkKeepsOrder(s.outbox, s.processed, s.batch);
    forall k | k in s.w.table ensures CaughtUpOn(s.outbox, s.processed + {s.batch[0]}, s.applied, k) {
      MarkCaughtUp(s.outbox, s.processed, s.applied, s.batch[0], k);
    }
  }

  lemma ApplyStaysOrderly(s: System, plan: Seating)
    requires Logged(s, plan) && Orderly(s) && Enabled(s, plan, ApplyNext)
    ensures Orderly(Move1(s, plan, ApplyNext))
  {
    var evt := s.outbox[s.batch[0]];
    forall k | k in s.w.table ensures CaughtUpOn(s.outbox, s.processed, s.applied + [evt], k) {
      LastAboutAppend(s.applied, [evt], k);
      assert CaughtUpOn(s.outbox, s.processed, s.applied, k);
    }
    LastAboutAppend(s.applied, [evt], evt.key);
  }

  lemma SeatsStaysOrderly(s: System, plan: Seating, step: Step)
    requires Logged(s, plan) && Orderly(s) && WellFormed(step)
    ensures Orderly(Move1(s, plan, Seats(step)))
  {
    var more := Emitted(s.w, step);
    SeatsKeepsLayout(s.w, step);
    forall i | i in s.processed ensures i < |s.outbox| {
      if i !in s.before { assert Dealt(s.w.table, s.outbox, s.applied, s.lost, i); }
    }
    forall k | k in s.w.table ensures CaughtUpOn(s.outbox + more, s.processed, s.applied, k) {
      NewRowsCaughtUp(s.outbox, more, s.processed, s.applied, k);
    }
  }

  lemma MoveStaysOrderly(s: System, plan: Seating, m: Move)
    requires Logged(s, plan) && Orderly(s) && Enabled(s, plan, m)
    requires !m.LoseNext? && m != MarkNext(true)
    ensures Orderly(Move1(s, plan, m))
  {
    match m
    case Seats(step) => SeatsStaysOrderly(s, plan, step);
    case List(limit) => ListingFirst(|s.outbox|, s.processed, limit);
    case ApplyNext => ApplyStaysOrderly(s, plan);
    case MarkNext(_) => MarkStaysOrderly(s, plan);
    case _ =>
  }

  lemma {:induction false} MovesStayOrderly(s: System, plan: Seating, ms: seq<Move>)
    requires Logged(s, plan) && Orderly(s) && Legal(s, plan, ms) && Untroubled(ms)
    ensures Orderly(Moves(s, plan, ms))
    decreases |ms|
  {
    if ms != [] {
      assert !ms[0].LoseNext? && ms[0] != MarkNext(true);
      MoveStaysLogged(s, plan, ms[0]);
      MoveStaysOrderly(s, plan, ms[0]);
      MovesStayOrderly(Move1(s, plan, ms[0]), plan, ms[1..]);
    }
  }

  /** Once nothing of the seat is left, it is displayed as its row. */
  ghost predicate ShownWhenMarked(s: System, k: Key) {
    k in s.w.table && AllMarked(s.outbox, s.processed, k) ==>
      && (Touched(s.outbox, s.before, k) ==> k.event in s.store)
      && (k.event in s.store ==> HasBitset(s, k) && Displays(s, k, Shows(s.w.table[k])))
  }

  lemma OrderlyShows(s: System, plan: Seating, k: Key)
    requires Logged(s, plan) && Truthful(s) && Orderly(s)
    ensures ShownWhenMarked(s, k)
  {
    TruthfulShows(s, plan, k);
    if k in s.w.table && AllMarked(s.outbox, s.processed, k) && Touched(s.outbox, s.before, k) {
      DoneWithIsApplied(s, plan, k);
      assert CaughtUpOn(s.outbox, s.processed, s.applied, k);
    }
  }

  /** With marks and loads that succeed, whatever else happens: a seat with nothing left
      to process is displayed as its row, and once the outbox is drained every seat is. */
  lemma DrainedShowsTable(s: System, plan: Seating, ms: seq<Move>, k: Key)
    requires AtRest(s, plan) && InOrder(s.outbox, s.processed)
    requires Legal(s, plan, ms) && HonestAll(s, plan, ms) && Untroubled(ms)
    ensures ShownWhenMarked(Moves(s, plan, ms), k)
  {
    RestIsLogged(s, plan);
    MovesStayTruthful(s, plan, ms);
    MovesStayOrderly(s, plan, ms);
    OrderlyShows(Moves(s, plan, ms), plan, k);
  }

  /** A published event before its first transaction is a start. */
  lemma FreshIsAtRest(t: Table, plan: Seating, now: Time)
    requires Seated(t, plan) && Untouched(t)
    ensures AtRest(Published(t, now), plan) && InOrder(Published(t, now).outbox, Published(t, now).processed)
  {
  }

  function Published(t: Table, now: Time): System {
    System(World(t, now), [], {}, [], false, {}, map[], map[], {}, map[], [], {})
  }

  /** The same state with its history forgotten. */
  function Forgotten(s: System): System {
    s.(before := s.processed, base := map e | e in s.store :: s.store[e].bits, applied := [], lost := {})
  }

  /** So is every drained state that such a history ends in. */
  lemma DrainedIsAtRest(s: System, plan: Seating, ms: seq<Move>)
    requires AtRest(s, plan) && InOrder(s.outbox, s.processed)
    requires Legal(s, plan, ms) && HonestAll(s, plan, ms) && Untroubled(ms)
    requires var s' := Moves(s, plan, ms); Drained(s') && s'.batch == [] && !s'.inFlight
    ensures AtRest(Forgotten(Moves(s, plan, ms)), plan)
  {
    var s' := Moves(s, plan, ms);
    RestIsLogged(s, plan);
    MovesStayTruthful(s, plan, ms);
    forall i | i in s'.processed ensures i < |s'.outbox| {
      if i !in s'.before { assert Dealt(s'.w.table, s'.outbox, s'.applied, s'.lost, i); }
    }
    forall k | k in s'.w.table ensures SeatTruthful(Forgotten(s'), k) {
      assert SeatTruthful(s', k);
      DrainedShowsTable(s, plan, ms, k);
    }
  }
}
