/** The path from the seat table to a reconnecting client: in every run the cache of an
    event is the one its applied events lead to, so that the frame a client is sent turns
    what it had into what the bitset shows. */
module DrainFills {
  import opened Bytes
  import opened Seatmap
  import opened Wsproto
  import opened ReadModel
  import opened EventSeats
  import opened Fencing
  import opened Drain
  import opened DrainRuns
  import Projector

  /** The transitions an event's cache was offered. */
  function DeltasTo(t: Table, applied: seq<SeatEvent>, e: int): seq<Delta> {
    if applied == [] then []
    else
      var init, evt := DeltasTo(t, applied[..|applied| - 1], e), applied[|applied| - 1];
      if evt.key.event == e && evt.key in t then init + [Delta(t[evt.key].ordinal, StateOf(evt.kind))] else init
  }

  lemma DeltasToSnoc(t: Table, applied: seq<SeatEvent>, evt: SeatEvent, e: int)
    ensures DeltasTo(t, applied + [evt], e)
            == if evt.key.event == e && evt.key in t
               then DeltasTo(t, applied, e) + [Delta(t[evt.key].ordinal, StateOf(evt.kind))]
               else DeltasTo(t, applied, e)
  {
    assert (applied + [evt])[..|applied|] == applied;
  }

  lemma {:induction false} DeltasToStays(t: Table, t': Table, applied: seq<SeatEvent>, e: int)
    requires t'.Keys == t.Keys && forall k | k in t :: t'[k].ordinal == t[k].ordinal
    ensures DeltasTo(t', applied, e) == DeltasTo(t, applied, e)
  {
    if applied != [] { DeltasToStays(t, t', applied[..|applied| - 1], e); }
  }

  ghost predicate CacheReached(store: Projector.Store, base: map<int, seq<u8>>, offered: seq<Delta>, e: int) {
    if e in store then e in base && DeltasInRange(base[e], offered) && store[e] == Reached(base[e], offered)
    else offered == []
  }

  /** Every cache is the one its event's transitions lead to from its first bitset. */
  ghost predicate AllReached(t: Table, store: Projector.Store, base: map<int, seq<u8>>, applied: seq<SeatEvent>) {
    base.Keys == store.Keys && forall e: int :: CacheReached(store, base, DeltasTo(t, applied, e), e)
  }

  lemma SeedReached(t: Table, store: Projector.Store, base: map<int, seq<u8>>, applied: seq<SeatEvent>, e: int,
                    rows: seq<Projector.SeatRow>)
    requires AllReached(t, store, base, applied) && Projector.Dense(rows)
    ensures var st := Projector.Ensured(store, e, rows); AllReached(t, st, Noted(base, st), applied)
  {
    var st := Projector.Ensured(store, e, rows);
    forall d: int ensures CacheReached(st, Noted(base, st), DeltasTo(t, applied, d), d) {
      assert CacheReached(store, base, DeltasTo(t, applied, d), d);
    }
  }

  lemma ReachedSnoc(base: seq<u8>, offered: seq<Delta>, d: Delta)
    requires DeltasInRange(base, offered) && InRange(base, d.ordinal)
    ensures Reached(base, offered + [d]) == Applied(Reached(base, offered), d).0
  {
    assert (offered + [d])[..|offered|] == offered;
  }

  lemma WriteReached(t: Table, store: Projector.Store, base: map<int, seq<u8>>, applied: seq<SeatEvent>,
                     evt: SeatEvent, c: Cache)
    requires AllReached(t, store, base, applied)
    requires evt.key in t && evt.key.event in store && InRange(store[evt.key.event].bits, t[evt.key].ordinal)
    requires c == Applied(store[evt.key.event], Delta(t[evt.key].ordinal, StateOf(evt.kind))).0
    ensures AllReached(t, store[evt.key.event := c], base, applied + [evt])
  {
    forall d: int ensures CacheReached(store[evt.key.event := c], base, DeltasTo(t, applied + [evt], d), d) {
      assert CacheReached(store, base, DeltasTo(t, applied, d), d);
      DeltasToSnoc(t, applied, evt, d);
      if d == evt.key.event {
        ReachedSnoc(base[d], DeltasTo(t, applied, d), Delta(t[evt.key].ordinal, StateOf(evt.kind)));
      }
    }
  }

  lemma ApplyReached(s: System, plan: Seating, evt: SeatEvent)
    requires Seated(s.w.table, plan) && CachesFit(s.store, plan) && AllReached(s.w.table, s.store, s.base, s.applied)
    ensures AllReached(s.w.table, ApplyEvent(s.store, s.w.table, plan, evt).0,
                       Noted(s.base, Seeded(s.store, s.w.table, plan, evt)),
                       if evt.key in s.w.table then s.applied + [evt] else s.applied)
  {
    var t := s.w.table;
    if evt.key in t {
      var e := evt.key.event;
      var st := Seeded(s.store, t, plan, evt);
      SeedReached(t, s.store, s.base, s.applied, e, Rows(t, plan, e));
      WriteReached(t, st, Noted(s.base, st), s.applied, evt, ApplyEvent(s.store, t, plan, evt).0[e]);
    } else {
      SameStart(s.base, s.store);
    }
  }

  lemma MoveStaysReached(s: System, plan: Seating, m: Move)
    requires Fits(s, plan) && Enabled(s, plan, m) && AllReached(s.w.table, s.store, s.base, s.applied)
    ensures var s' := Move1(s, plan, m); AllReached(s'.w.table, s'.store, s'.base, s'.applied)
  {
    match m
    case Seats(step) => TableReached(s.w.table, Next(s.w, step).table, s.store, s.base, s.applied, s.w, step);
    case Install(p) => SeedReached(s.w.table, s.store, s.base, s.applied, s.scans[p].event, s.scans[p].rows);
    case ApplyNext => ApplyReached(s, plan, s.outbox[s.batch[0]]);
    case _ =>
  }

  lemma TableReached(t: Table, t': Table, store: Projector.Store, base: map<int, seq<u8>>, applied: seq<SeatEvent>,
                     w: World, step: Step)
    requires WellFormed(step) && t == w.table && t' == Next(w, step).table && AllReached(t, store, base, applied)
    ensures AllReached(t', store, base, applied)
  {
    SeatsKeepsLayout(w, step);
    forall e: int ensures CacheReached(store, base, DeltasTo(t', applied, e), e) {
      DeltasToStays(t, t', applied, e);
      assert CacheReached(store, base, DeltasTo(t, applied, e), e);
    }
  }

  lemma {:induction false} MovesStayReached(s: System, plan: Seating, ms: seq<Move>)
    requires Fits(s, plan) && AllReached(s.w.table, s.store, s.base, s.applied) && Legal(s, plan, ms)
    ensures var s' := Moves(s, plan, ms); AllReached(s'.w.table, s'.store, s'.base, s'.applied)
    decreases |ms|
  {
    if ms != [] {
      MoveStaysReached(s, plan, ms[0]);
      MovesStayReached(Move1(s, plan, ms[0]), plan, ms[1..]);
    }
  }

  /** What an event's cache was offered in a state. */
  function OfferedTo(s: System, e: int): seq<Delta> {
    DeltasTo(s.w.table, s.applied, e)
  }

  /** The event's cache is the one its offers lead to, and the frame for a client that saw
      sequence number since turns the bitset of then into the one of now. */
  ghost predicate Fills(s: System, e: int, since: u64) {
    e in s.store && e in s.base && DeltasInRange(s.base[e], OfferedTo(s, e))
    && var c, log := s.store[e], Effective(s.base[e], OfferedTo(s, e));
       && c.seqNo == |log| && c.bits == Replayed(s.base[e], log)
       && GapFilled(c, since).Ok?
       && (GapFilled(c, since).value.CaughtUp? <==> since >= |log|)
       && (GapFilled(c, since).value.Combined? <==> since < |log| <= since + RING_CAP)
       && (GapFilled(c, since).value.Combined? ==>
             Bridges(GapFilled(c, since).value.frame, Replayed(s.base[e], log[..since]), c.bits, c.seqNo))
  }

  /** Nothing in Redis when the history began. */
  predicate ColdStore(s: System) {
    s.store == map[] && s.base == map[] && s.applied == []
  }

  /** In every run of the whole path from an empty Redis, whatever fails in it. */
  lemma EveryRunFillsGaps(s: System, plan: Seating, ms: seq<Move>, e: int, since: u64)
    requires Fits(s, plan) && ColdStore(s) && Legal(s, plan, ms)
    requires e in Moves(s, plan, ms).store && |OfferedTo(Moves(s, plan, ms), e)| <= MAX_SEQ
    ensures Fills(Moves(s, plan, ms), e, since)
  {
    MovesStayReached(s, plan, ms);
    var s' := Moves(s, plan, ms);
    assert CacheReached(s'.store, s'.base, OfferedTo(s', e), e);
    EveryGapFills(s'.base[e], OfferedTo(s', e), since);
  }

  /** The changes of a frame that decodes. */
  function ChangesIn(frame: seq<u8>): seq<Change>
    requires Decoded(frame).Ok? && Decoded(frame).value.Sparse?
  {
    Decoded(frame).value.changes
  }

  /** From a published event to the client: a client that had the bitset of sequence number
      since and is sent a frame shows, for every seat with nothing left to process, its row. */
  lemma ClientShowsTable(t: Table, plan: Seating, now: Time, ms: seq<Move>, since: u64, k: Key)
    requires Seated(t, plan) && Untouched(t)
    requires var s := Published(t, now);
             Fits(s, plan) && Legal(s, plan, ms) && HonestAll(s, plan, ms) && Untroubled(ms)
    requires var s' := Moves(Published(t, now), plan, ms);
             && k in s'.w.table && k.event in s'.store && AllMarked(s'.outbox, s'.processed, k)
             && |OfferedTo(s', k.event)| <= MAX_SEQ
    ensures var s' := Moves(Published(t, now), plan, ms);
            && Fills(s', k.event, since)
            && (GapFilled(s'.store[k.event], since).value.Combined? ==>
                  var had := Replayed(s'.base[k.event], Effective(s'.base[k.event], OfferedTo(s', k.event))[..since]);
                  var cs := ChangesIn(GapFilled(s'.store[k.event], since).value.frame);
                  && ChangesInRange(had, cs) && s'.w.table[k].ordinal / 4 < |had|
                  && Get(WriteAll(had, cs), s'.w.table[k].ordinal) == Shows(s'.w.table[k]))
  {
    FreshIsAtRest(t, plan, now);
    EveryRunFillsGaps(Published(t, now), plan, ms, k.event, since);
    DrainedShowsTable(Published(t, now), plan, ms, k);
  }
}
