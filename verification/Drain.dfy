/** The whole path from the seat table through the outbox to the bitset: seat
    transactions, table scans that seed a bitset, and the projector's batches of
    applies and marks, in any order, with failing marks, failing loads of seat
    ordinals, and crashes anywhere. */
module Drain {
  import opened Bytes
  import opened Wrappers
  import opened Seatmap
  import opened ReadModel
  import opened EventSeats
  import opened Fencing
  import Projector

  /** Seats of each event in ordinal order; fixed when the event is published. */
  type Seating = map<int, seq<int>>

  ghost predicate Seated(t: Table, plan: Seating) {
    && (forall e | e in plan :: |plan[e]| <= 0x4000_0000 && NoDuplicates(plan[e]))
    && (forall e, i | e in plan && 0 <= i < |plan[e]| :: Key(e, plan[e][i]) in t && t[Key(e, plan[e][i])].ordinal == i)
    && (forall k | k in t :: k.event in plan && t[k].ordinal < |plan[k.event]| && plan[k.event][t[k].ordinal] == k.seat)
  }

  function Rows(t: Table, plan: Seating, e: int): (rows: seq<Projector.SeatRow>)
    requires Seated(t, plan) && e in plan
    ensures Projector.Dense(rows) && |rows| == |plan[e]|
    ensures forall i | 0 <= i < |rows| :: rows[i] == var r := t[Key(e, plan[e][i])];
        Projector.SeatRow(i, r.status, r.sellable)
  {
    seq(|plan[e]|, i requires 0 <= i < |plan[e]| => var r := t[Key(e, plan[e][i])]; Projector.SeatRow(i, r.status, r.sellable))
  }

  function Shows(r: Row): State {
    StateFromDB(r.status, r.sellable)
  }

  function StateOf(kind: Kind): State {
    match kind case SeatHeld => Seatmap.HELD case SeatReleased => FREE case SeatBooked => SOLD
  }

  datatype Scan = Scan(event: int, rows: seq<Projector.SeatRow>)

  /** outbox: the events of the committed transactions, in order; processed: the rows
      with a mark. batch: the rows the projector has listed and not finished with;
      inFlight says the first of them has been dealt with and not yet marked. known: the
      events whose ordinals the running projector has loaded.
      The rest only records the history: before, the rows marked when it began; base,
      each bitset as it first was; applied, the events written to a bitset, in order;
      lost, the rows whose ordinals could not be loaded. */
  datatype System = System(w: World, outbox: seq<SeatEvent>, processed: set<nat>,
                           batch: seq<nat>, inFlight: bool, known: set<int>,
                           store: Projector.Store, scans: map<nat, Scan>,
                           before: set<nat>, base: map<int, seq<u8>>, applied: seq<SeatEvent>, lost: set<nat>)

  datatype Move =
    | Seats(step: Step)
    | Look(process: nat, event: int)
    | Install(process: nat)
    | List(limit: nat)
    | ApplyNext
    | LoseNext
    | MarkNext(fails: bool)
    | Crash

  function Emitted(w: World, step: Step): seq<SeatEvent>
    requires WellFormed(step)
  {
    match step
    case Acquire(event, seats, hold, user, ttl) => AcquireTx(w.table, event, seats, hold, user, w.now, ttl).events
    case Release(event, seats, hold) => ReleaseTx(w.table, event, seats, hold).events
    case Confirm(event, seats, fences, hold, order) => ConfirmTx(w.table, event, seats, fences, hold, order, w.now).events
    case _ => []
  }


  predicate Lists(rows: seq<nat>, i: nat) {
    exists m :: 0 <= m < |rows| && rows[m] == i
  }

  /** The rows below n without a mark, in order. */
  function Unprocessed(n: nat, processed: set<nat>): (r: seq<nat>)
    ensures forall m | 0 <= m < |r| :: r[m] < n && r[m] !in processed
    ensures forall m, m' | 0 <= m < m' < |r| :: r[m] < r[m']
  {
    if n == 0 then []
    else if n - 1 in processed then Unprocessed(n - 1, processed)
    else Unprocessed(n - 1, processed) + [n - 1]
  }

  lemma {:induction false} UnprocessedLists(n: nat, processed: set<nat>, i: nat)
    requires i < n && i !in processed
    ensures Lists(Unprocessed(n, processed), i)
  {
    var init := Unprocessed(n - 1, processed);
    if i < n - 1 {
      UnprocessedLists(n - 1, processed, i);
      var m :| 0 <= m < |init| && init[m] == i;
      assert Unprocessed(n, processed)[m] == i;
    } else {
      assert Unprocessed(n, processed)[|init|] == i;
    }
  }

  function NextRows(n: nat, processed: set<nat>, limit: nat): seq<nat> {
    var all := Unprocessed(n, processed);
    if limit < |all| then all[..limit] else all
  }

  ghost predicate CachesFit(store: Projector.Store, plan: Seating) {
    forall e | e in store && e in plan :: |store[e].bits| == ByteLen(|plan[e]|)
  }

  ghost predicate Fits(s: System, plan: Seating) {
    && Seated(s.w.table, plan) && CachesFit(s.store, plan)
    && (forall m | 0 <= m < |s.batch| :: s.batch[m] < |s.outbox|)
    && (forall p | p in s.scans :: Projector.Dense(s.scans[p].rows) && s.scans[p].event in plan
                                   && |s.scans[p].rows| == |plan[s.scans[p].event]|)
  }

  ghost predicate Enabled(s: System, plan: Seating, m: Move)
    requires Fits(s, plan)
  {
    match m
    case Seats(step) => WellFormed(step)
    case Look(_, event) => event in plan && event !in s.store
    case Install(p) => p in s.scans
    case List(_) => s.batch == []
    case ApplyNext => s.batch != [] && !s.inFlight
    case LoseNext => s.batch != [] && !s.inFlight && s.outbox[s.batch[0]].key.event !in s.known
    case MarkNext(_) => s.batch != [] && s.inFlight
    case Crash => true
  }

  function Move1(s: System, plan: Seating, m: Move): (s': System)
    requires Fits(s, plan) && Enabled(s, plan, m)
    ensures Fits(s', plan)
  {
    match m
    case Seats(step) =>
      SeatingStays(s.w, plan, step);
      s.(w := Next(s.w, step), outbox := s.outbox + Emitted(s.w, step))
    case Look(p, event) => s.(scans := s.scans[p := Scan(event, Rows(s.w.table, plan, event))])
    case Install(p) =>
      var store := Projector.Ensured(s.store, s.scans[p].event, s.scans[p].rows);
      s.(store := store, base := Noted(s.base, store))
    case List(limit) => s.(batch := NextRows(|s.outbox|, s.processed, limit))
    case ApplyNext =>
      var evt := s.outbox[s.batch[0]];
      var (store, ok) := ApplyEvent(s.store, s.w.table, plan, evt);
      s.(store := store, base := Noted(s.base, Seeded(s.store, s.w.table, plan, evt)),
         applied := if evt.key in s.w.table then s.applied + [evt] else s.applied,
         known := s.known + {evt.key.event}, batch := if ok then s.batch else [], inFlight := ok)
    case LoseNext => s.(lost := s.lost + {s.batch[0]}, inFlight := true)
    case MarkNext(fails) =>
      s.(processed := if fails then s.processed else s.processed + {s.batch[0]}, batch := s.batch[1..], inFlight := false)
    case Crash => s.(batch := [], inFlight := false, known := {})
  }

  /** The first bitset of every event that has one. */
  function Noted(base: map<int, seq<u8>>, store: Projector.Store): map<int, seq<u8>> {
    map e | e in store :: if e in base then base[e] else store[e].bits
  }

  /** The store with the bitset an event needs. */
  function Seeded(store: Projector.Store, t: Table, plan: Seating, evt: SeatEvent): (st: Projector.Store)
    requires Seated(t, plan) && CachesFit(store, plan)
    ensures CachesFit(st, plan)
    ensures evt.key in t ==> evt.key.event in st && InRange(st[evt.key.event].bits, t[evt.key].ordinal)
  {
    if evt.key !in t then store else Projector.Ensured(store, evt.key.event, Rows(t, plan, evt.key.event))
  }

  /** What the projector does with one event: nothing for a seat it does not know;
      otherwise seed the bitset if there is none and write the state. False when
      the sequence counter could not be bumped. */
  function ApplyEvent(store: Projector.Store, t: Table, plan: Seating, evt: SeatEvent): (r: (Projector.Store, bool))
    requires Seated(t, plan) && CachesFit(store, plan)
    ensures CachesFit(r.0, plan)
  {
    if evt.key !in t then (store, true)
    else
      var e := evt.key.event;
      var st := Seeded(store, t, plan, evt);
      var (c, outcome) := Applied(st[e], Delta(t[evt.key].ordinal, StateOf(evt.kind)));
      (st[e := c], outcome != SeqOverflow)
  }

  lemma SeatingStays(w: World, plan: Seating, step: Step)
    requires Seated(w.table, plan) && WellFormed(step)
    ensures Seated(Next(w, step).table, plan)
  {
    var t, t' := w.table, Next(w, step).table;
    assert t'.Keys == t.Keys;
    forall k | k in t ensures t'[k].ordinal == t[k].ordinal {
      if DeedOf(w, step, k).Some? { ListedChanges(w, step, k); } else { UnlistedUnchanged(w, step, k); }
    }
  }

  /** A projector that crashes has forgotten every layout it had loaded: at the next batch
      the load for its first row can fail, even if rows of that event were applied before. */
  lemma CrashForgets(s: System, plan: Seating, limit: nat)
    requires Fits(s, plan)
    ensures var s1 := Move1(s, plan, Crash);
            && Enabled(s1, plan, List(limit))
            && var s2 := Move1(s1, plan, List(limit));
               s2.outbox == s.outbox && s2.store == s.store && s2.processed == s.processed
               && (s2.batch != [] ==> Enabled(s2, plan, LoseNext))
  {
  }

  // ---- The projector's own code is this step ----

  function TypeName(kind: Kind): string {
    match kind case SeatHeld => "seat.held" case SeatReleased => "seat.released" case SeatBooked => "seat.booked"
  }

  function AsDomainEvent(id: nat, evt: SeatEvent): Projector.DomainEvent {
    Projector.DomainEvent(id, TypeName(evt.kind), Some(Projector.Payload(evt.key.event, evt.key.seat)))
  }

  function LayoutOf(t: Table, plan: Seating): (l: Projector.Layout)
    requires Seated(t, plan)
  {
    map e | e in plan :: map s | s in plan[e] :: OrdinalOfSeat(t, plan, e, s)
  }

  function OrdinalOfSeat(t: Table, plan: Seating, e: int, s: int): nat
    requires Seated(t, plan) && e in plan && s in plan[e]
  {
    assert Key(e, s) in t by { var i :| 0 <= i < |plan[e]| && plan[e][i] == s; }
    t[Key(e, s)].ordinal
  }

  function AllRows(t: Table, plan: Seating): map<int, seq<Projector.SeatRow>>
    requires Seated(t, plan)
  {
    map e | e in plan :: Rows(t, plan, e)
  }

  lemma ProjectorFits(store: Projector.Store, t: Table, plan: Seating)
    requires Seated(t, plan) && CachesFit(store, plan)
    ensures Projector.Fits(store, LayoutOf(t, plan), AllRows(t, plan))
  {
    forall e, s | e in LayoutOf(t, plan) && s in LayoutOf(t, plan)[e]
      ensures LayoutOf(t, plan)[e][s] < |AllRows(t, plan)[e]|
    {
      assert s in plan[e];
      assert LayoutOf(t, plan)[e][s] == t[Key(e, s)].ordinal;
    }
  }

  lemma OrdinalAgrees(t: Table, plan: Seating, k: Key)
    requires Seated(t, plan)
    ensures Projector.OrdinalIn(LayoutOf(t, plan), Projector.Payload(k.event, k.seat))
            == if k in t then Some(t[k].ordinal) else None
  {
    if k in t {
      assert plan[k.event][t[k].ordinal] == k.seat;
      assert k == Key(k.event, k.seat);
    } else if k.event in plan {
      forall i | 0 <= i < |plan[k.event]| ensures plan[k.event][i] != k.seat {
        assert Key(k.event, plan[k.event][i]) in t;
      }
    }
  }

  lemma TypeNamesState(kind: Kind)
    ensures Projector.StateForEventType(TypeName(kind)) == Some(StateOf(kind))
  {
    var h, r, b := "seat.held", "seat.released", "seat.booked";
    assert |h| == 9 && |r| == 13 && |b| == 11;
  }

  /** Applying an outbox row here is the projector's Consume of it. */
  lemma ConsumeIsApplyEvent(store: Projector.Store, known: set<int>, t: Table, plan: Seating, id: nat, evt: SeatEvent,
                            down: set<nat>)
    requires Seated(t, plan) && CachesFit(store, plan)
    ensures Projector.Fits(store, LayoutOf(t, plan), AllRows(t, plan))
    ensures var (st, known', outcome) := Projector.Consume(store, known, LayoutOf(t, plan), AllRows(t, plan),
                                                           AsDomainEvent(id, evt), down);
            if evt.key.event !in known && id in down
            then st == store && known' == known && outcome == Projector.Ignored
            else ApplyEvent(store, t, plan,
                            evt) == (st, outcome != Projector.Failed) && known' == known + {evt.key.event}
  {
    ProjectorFits(store, t, plan);
    TypeNamesState(evt.kind);
    OrdinalAgrees(t, plan, evt.key);
    ConsumeUnfolds(store, known, LayoutOf(t, plan), AllRows(t, plan), AsDomainEvent(id, evt), down, StateOf(evt.kind));
  }

  lemma ConsumeUnfolds(store: Projector.Store, known: set<int>, layout: Projector.Layout,
                       db: map<int, seq<Projector.SeatRow>>,
                       evt: Projector.DomainEvent, down: set<nat>, state: State)
    requires Projector.Fits(store, layout, db)
    requires evt.payload.Some? && Projector.StateForEventType(evt.eventType) == Some(state)
    ensures var p := evt.payload.value;
            var (st, known', outcome) := Projector.Consume(store, known, layout, db, evt, down);
            if p.eventId !in known && evt.id in down then st == store && known' == known && outcome == Projector.Ignored
            else
              && known' == known + {p.eventId}
              && match Projector.OrdinalIn(layout, p)
                 case None => st == store && outcome == Projector.Ignored
                 case Some(o) =>
                   && p.eventId in db && o / 4 < |Projector.Ensured(store, p.eventId, db[p.eventId])[p.eventId].bits|
                       && o < 0x4000_0000
                   && var ensured := Projector.Ensured(store, p.eventId, db[p.eventId]);
                      var (c, applied) := Applied(ensured[p.eventId], Delta(o, state));
                      st == ensured[p.eventId := c] && (outcome == Projector.Failed <==> applied == SeqOverflow)
  {
    if Projector.OrdinalIn(layout, evt.payload.value).Some? {
      Projector.FitsInRange(store, layout, db, evt.payload.value);
    }
  }
}
