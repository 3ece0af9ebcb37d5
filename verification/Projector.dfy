/** The consumer that turns seat events into the Redis read model. */
module Projector {
  import opened Bytes
  import opened Wrappers
  import opened Seatmap
  import opened Wsproto
  import opened ReadModel

  datatype SeatRow = SeatRow(ordinal: nat, status: int, sellable: bool)

  datatype Payload = Payload(eventId: int, seatId: int)

  /** A row of domain_events; a payload that does not parse is None. */
  datatype DomainEvent = DomainEvent(id: nat, eventType: string, payload: Option<Payload>)

  /** Redis, one cache per event. */
  type Store = map<int, Cache>

  type Layout = map<int, map<int, nat>>

  function StateForEventType(eventType: string): Option<State> {
    if eventType == "seat.held" then Some(HELD)
    else if eventType == "seat.released" then Some(FREE)
    else if eventType == "seat.booked" then Some(SOLD)
    else None
  }

  // ---- Seeding from the table ----

  predicate Dense(rows: seq<SeatRow>) {
    |rows| <= 0x4000_0000 && forall i | 0 <= i < |rows| :: rows[i].ordinal == i
  }

  function Seeded(rows: seq<SeatRow>, n: nat): (packed: seq<u8>)
    requires Dense(rows) && n <= |rows|
    ensures |packed| == ByteLen(|rows|)
  {
    if n == 0 then Zeroed(|rows|)
    else Write(Seeded(rows, n - 1), rows[n - 1].ordinal, StateFromDB(rows[n - 1].status, rows[n - 1].sellable))
  }

  lemma {:induction false} SeededShowsTable(rows: seq<SeatRow>, n: nat, o: nat)
    requires Dense(rows) && n <= |rows| && o < |rows|
    ensures Get(Seeded(rows, n), o) == if o < n then StateFromDB(rows[o].status, rows[o].sellable) else FREE
  {
    if n > 0 {
      SeededShowsTable(rows, n - 1, o);
      WriteGet(Seeded(rows, n - 1), n - 1, StateFromDB(rows[n - 1].status, rows[n - 1].sellable), o);
    }
  }

  /** The cache an event has, seeding it from the table on first access. */
  function Ensured(store: Store, eventId: int, rows: seq<SeatRow>): Store
    requires Dense(rows)
  {
    if eventId in store then store else store[eventId := Cache(Seeded(rows, |rows|), 0, [])]
  }

  // ---- One event ----

  datatype Consumed = Ignored | NoOp | Projected | Failed

  function OrdinalIn(layout: Layout, p: Payload): Option<nat> {
    if p.eventId in layout && p.seatId in layout[p.eventId] then Some(layout[p.eventId][p.seatId]) else None
  }

  /** The table's rows and the layout describe the same dense seats, and every
      cache is as long as its event's seats need. */
  ghost predicate Fits(store: Store, layout: Layout, db: map<int, seq<SeatRow>>) {
    && layout.Keys <= db.Keys
    && (forall e | e in db :: Dense(db[e]))
    && (forall e, s | e in layout && s in layout[e] :: layout[e][s] < |db[e]|)
    && (forall e | e in layout && e in store :: |store[e].bits| == ByteLen(|db[e]|))
  }

  lemma FitsInRange(store: Store, layout: Layout, db: map<int, seq<SeatRow>>, p: Payload)
    requires Fits(store, layout, db) && OrdinalIn(layout, p).Some?
    ensures var st := Ensured(store, p.eventId, db[p.eventId]);
            p.eventId in st && InRange(st[p.eventId].bits, OrdinalIn(layout, p).value)
  {
  }

  /** known: the events whose seat ordinals have been loaded. down: the outbox rows at
      whose turn a load of ordinals would fail. */
  function Consume(store: Store, known: set<int>, layout: Layout, db: map<int, seq<SeatRow>>, evt: DomainEvent,
                   down: set<nat>)
    : (r: (Store, set<int>, Consumed))
    requires Fits(store, layout, db)
    ensures Fits(r.0, layout, db) && known <= r.1
  {
    var state := StateForEventType(evt.eventType);
    if state.None? || evt.payload.None? then (store, known, Ignored)
    else
      var e := evt.payload.value.eventId;
      if e !in known && evt.id in down then (store, known, Ignored)
      else
        var ordinal := OrdinalIn(layout, evt.payload.value);
        if ordinal.None? then (store, known + {e}, Ignored)
        else
          var st := Ensured(store, e, db[e]);
          FitsInRange(store, layout, db, evt.payload.value);
          var (cache, outcome) := Applied(st[e], Delta(ordinal.value, state.value));
          (st[e := cache], known + {e}, match outcome case Unchanged => NoOp case Changed => Projected case SeqOverflow => Failed)
  }

  datatype Batch = Batch(store: Store, known: set<int>, processed: set<nat>, applied: nat, failed: bool)

  /** What can go wrong with the database during a batch: mark writes that fail, and
      loads of ordinals that would. */
  datatype Trouble = Trouble(unmarkable: set<nat>, down: set<nat>)

  /** One more event of a batch: nothing once one could not be applied; an event is
      marked processed unless its mark write fails. */
  function ConsumeNext(b: Batch, layout: Layout, db: map<int, seq<SeatRow>>, evt: DomainEvent,
                       trouble: Trouble): (b': Batch)
    requires Fits(b.store, layout, db)
    ensures Fits(b'.store, layout, db)
  {
    if b.failed then b
    else
      var (st, known, outcome) := Consume(b.store, b.known, layout, db, evt, trouble.down);
      if outcome == Failed then b.(store := st, known := known, failed := true)
      else Batch(st, known, if evt.id in trouble.unmarkable then b.processed else b.processed + {evt.id},
                 b.applied + (if outcome == Projected then 1 else 0), false)
  }

  function ConsumeAll(b: Batch, layout: Layout, db: map<int, seq<SeatRow>>, events: seq<DomainEvent>, n: nat,
                      trouble: Trouble): (b': Batch)
    requires Fits(b.store, layout, db)
    ensures Fits(b'.store, layout, db)
    decreases |events| - n
  {
    if n >= |events| then b else ConsumeAll(ConsumeNext(b, layout, db, events[n], trouble), layout, db, events, n + 1, trouble)
  }

  /** After an event that cannot be applied nothing more of the batch is consumed or marked. */
  lemma {:induction false} FailureSticks(b: Batch, layout: Layout, db: map<int, seq<SeatRow>>,
                                         events: seq<DomainEvent>, n: nat, trouble: Trouble)
    requires Fits(b.store, layout, db) && b.failed
    ensures ConsumeAll(b, layout, db, events, n, trouble) == b
    decreases |events| - n
  {
    if n < |events| { FailureSticks(b, layout, db, events, n + 1, trouble); }
  }

  /** Whether the event says what became of a seat that can be found. */
  predicate Locates(known: set<int>, layout: Layout, evt: DomainEvent, down: set<nat>) {
    && StateForEventType(evt.eventType).Some? && evt.payload.Some?
    && (evt.payload.value.eventId in known || evt.id !in down) && OrdinalIn(layout, evt.payload.value).Some?
  }

  /** What the outcomes mean for Redis: an ignored event changes nothing; after any other the
      seat shows the event's state and every other event's cache is as it was; it is a
      projection, and counted by one in the sequence, exactly when the seat showed another
      state and the counter could be bumped, and a failure when it could not. */
  lemma ConsumeMeans(store: Store, known: set<int>, layout: Layout, db: map<int, seq<SeatRow>>, evt: DomainEvent,
                     down: set<nat>)
    requires Fits(store, layout, db)
    ensures var (st, _, outcome) := Consume(store, known, layout, db, evt, down);
            && (outcome == Ignored <==> !Locates(known, layout, evt, down))
            && (outcome == Ignored ==> st == store)
            && (outcome != Ignored ==>
                  var e, o := evt.payload.value.eventId, OrdinalIn(layout, evt.payload.value).value;
                  && e in st && st - {e} == store - {e} && o / 4 < |st[e].bits|
                  && Get(st[e].bits, o) == StateForEventType(evt.eventType).value
                  && var before := Ensured(store, e, db[e])[e];
                     && |before.bits| == |st[e].bits|
                     && st[e].seqNo == before.seqNo + (if outcome == Projected then 1 else 0)
                     && (outcome == NoOp <==> Get(before.bits, o) == StateForEventType(evt.eventType).value)
                     && (outcome == Failed ==> before.seqNo >= MAX_SEQ))
  {
    if Locates(known, layout, evt, down) {
      var e, o := evt.payload.value.eventId, OrdinalIn(layout, evt.payload.value).value;
      FitsInRange(store, layout, db, evt.payload.value);
      var before := Ensured(store, e, db[e])[e];
      WriteGet(before.bits, o, StateForEventType(evt.eventType).value, o);
    }
  }

  // ---- What a batch counts ----

  function SeqOf(store: Store, e: int): u64 {
    if e in store then store[e].seqNo else 0
  }

  /** The sequence numbers of some events, added up. */
  function SeqTotal(store: Store, es: seq<int>): nat {
    if es == [] then 0 else SeqTotal(store, es[..|es| - 1]) + SeqOf(store, es[|es| - 1])
  }

  predicate Distinct(es: seq<int>) {
    forall i, j | 0 <= i < j < |es| :: es[i] != es[j]
  }

  /** One event's number moved, and no other. */
  lemma {:induction false} SeqTotalMoves(store: Store, st: Store, es: seq<int>, e: int)
    requires Distinct(es) && forall x | x != e :: SeqOf(st, x) == SeqOf(store, x)
    ensures SeqTotal(st, es) - SeqTotal(store, es) == if e in es then SeqOf(st, e) - SeqOf(store, e) else 0
  {
    if es != [] {
      var last := |es| - 1;
      SeqTotalMoves(store, st, es[..last], e);
      assert e in es <==> e in es[..last] || e == es[last];
      if e == es[last] { assert forall i | 0 <= i < last :: es[i] != es[last]; }
    }
  }

  lemma ConsumeCounts(store: Store, known: set<int>, layout: Layout, db: map<int, seq<SeatRow>>, evt: DomainEvent,
                      down: set<nat>, es: seq<int>)
    requires Fits(store, layout, db) && Distinct(es) && (evt.payload.Some? ==> evt.payload.value.eventId in es)
    ensures var (st, _, outcome) := Consume(store, known, layout, db, evt, down);
            SeqTotal(st, es) == SeqTotal(store, es) + if outcome == Projected then 1 else 0
  {
    ConsumeMeans(store, known, layout, db, evt, down);
    var (st, _, outcome) := Consume(store, known, layout, db, evt, down);
    if outcome != Ignored {
      var e := evt.payload.value.eventId;
      forall x | x != e ensures SeqOf(st, x) == SeqOf(store, x) { assert x in st <==> x in st - {e}; }
      SeqTotalMoves(store, st, es, e);
    }
  }

  /** What a batch reports as applied is how far the sequence numbers have moved, all
      events together. */
  lemma {:induction false} BatchCounts(b: Batch, layout: Layout, db: map<int, seq<SeatRow>>, events: seq<DomainEvent>,
                                       n: nat, trouble: Trouble, es: seq<int>)
    requires Fits(b.store, layout, db) && Distinct(es)
    requires forall k | 0 <= k < |events| && events[k].payload.Some? :: events[k].payload.value.eventId in es
    ensures var r := ConsumeAll(b, layout, db, events, n, trouble);
            r.applied - b.applied == SeqTotal(r.store, es) - SeqTotal(b.store, es)
    decreases |events| - n
  {
    if n < |events| {
      if !b.failed { ConsumeCounts(b.store, b.known, layout, db, events[n], trouble.down, es); }
      BatchCounts(ConsumeNext(b, layout, db, events[n], trouble), layout, db, events, n + 1, trouble, es);
    }
  }

  /** The marks of events n up to stop that could be written. */
  function Marks(events: seq<DomainEvent>, n: nat, stop: nat, unmarkable: set<nat>): set<nat>
    requires stop <= |events|
  {
    set k | n <= k < stop && events[k].id !in unmarkable :: events[k].id
  }

  /** A batch marks every event it gets through, ignored or not, but those whose mark fails;
      it gets through all of them unless one cannot be applied. */
  lemma {:induction false} BatchMarks(b: Batch, layout: Layout, db: map<int, seq<SeatRow>>, events: seq<DomainEvent>,
                                      n: nat, trouble: Trouble) returns (stop: nat)
    requires Fits(b.store, layout, db) && !b.failed && n <= |events|
    ensures n <= stop <= |events|
    ensures var r := ConsumeAll(b, layout, db, events, n, trouble);
            && r.processed == b.processed + Marks(events, n, stop, trouble.unmarkable)
            && (r.failed <==> stop < |events|) && b.applied <= r.applied <= b.applied + (stop - n)
    decreases |events| - n
  {
    if n == |events| { return n; }
    var next := ConsumeNext(b, layout, db, events[n], trouble);
    if next.failed {
      FailureSticks(next, layout, db, events, n + 1, trouble);
      return n;
    }
    stop := BatchMarks(next, layout, db, events, n + 1, trouble);
    assert Marks(events, n, stop, trouble.unmarkable)
        == Marks(events, n + 1, stop, trouble.unmarkable) + if events[n].id in trouble.unmarkable then {} else {events[n].id};
  }

  lemma Overwrite<K, V>(m: map<K, V>, k: K, v: V, w: V)
    ensures m[k := v][k := w] == m[k := w]
  {
  }

  class Projector {
    const layout: Layout
    var ordinals: Layout
    var store: Store
    var processed: set<nat>

    ghost predicate Valid()
      reads this
    {
      forall e | e in ordinals :: ordinals[e] == if e in layout then layout[e] else map[]
    }

    constructor (layout: Layout, store: Store, processed: set<nat>)
      ensures Valid() && this.layout == layout && this.store == store && this.processed == processed
    {
      this.layout, this.store, this.processed, this.ordinals := layout, store, processed, map[];
    }

    /** The seat's ordinal, through the per-event cache; None as well when the cache has
        to be loaded and cannot be. */
    method OrdinalOf(eventId: int, seatId: int, down: bool) returns (ordinal: Option<nat>)
      requires Valid()
      modifies this`ordinals
      ensures Valid()
      ensures ordinal == if down && eventId !in old(ordinals) then None else OrdinalIn(layout, Payload(eventId, seatId))
      ensures ordinals.Keys == if down && eventId !in old(ordinals) then old(ordinals).Keys else old(ordinals).Keys + {eventId}
    {
      if eventId !in ordinals {
        if down { return None; }
        ordinals := ordinals[eventId := if eventId in layout then layout[eventId] else map[]];
      }
      var m := ordinals[eventId];
      ordinal := if seatId in m then Some(m[seatId]) else None;
    }

    method EnsureBitset(eventId: int, rows: seq<SeatRow>) returns (packed: seq<u8>, seqNo: u64)
      requires Dense(rows)
      modifies this`store
      ensures store == Ensured(old(store), eventId, rows)
      ensures packed == store[eventId].bits && seqNo == store[eventId].seqNo
      ensures eventId !in old(store) ==>
                forall i | 0 <= i < |rows| :: i / 4 < |packed| && Get(packed, i) == StateFromDB(rows[i].status, rows[i].sellable)
    {
      if eventId in store {
        return store[eventId].bits, store[eventId].seqNo;
      }
      packed := Zeroed(|rows|);
      for i := 0 to |rows|
        invariant packed == Seeded(rows, i)
      {
        packed := Write(packed, rows[i].ordinal, StateFromDB(rows[i].status, rows[i].sellable));
      }
      store := store[eventId := Cache(packed, 0, [])];
      seqNo := 0;
      forall i | 0 <= i < |rows| ensures Get(packed, i) == StateFromDB(rows[i].status, rows[i].sellable) {
        SeededShowsTable(rows, |rows|, i);
      }
    }

    method Apply(eventId: int, ordinal: nat, newState: State, rows: seq<SeatRow>) returns (outcome: ApplyOutcome)
      requires Dense(rows) && ordinal < |rows|
      requires eventId in store ==> |store[eventId].bits| == ByteLen(|rows|)
      modifies this`store
      ensures var st := Ensured(old(store), eventId, rows);
              store == st[eventId := Applied(st[eventId], Delta(ordinal, newState)).0]
              && outcome == Applied(st[eventId], Delta(ordinal, newState)).1
    {
      var bits, seqNo := EnsureBitset(eventId, rows);
      ghost var ensured := store;
      var byteOff := ordinal / 4;
      var oldByte := bits[byteOff];
      if Lane(oldByte, ordinal) == newState {
        assert store == store[eventId := store[eventId]];
        return Unchanged;
      }
      var newByte := WithLane(oldByte, ordinal, newState);
      ghost var st := store;
      store := store[eventId := store[eventId].(bits := bits[byteOff := newByte])];
      outcome := BumpAndPush(eventId, Change(ordinal, newState));
      Overwrite(st, eventId, st[eventId].(bits := bits[byteOff := newByte]), store[eventId]);
    }

    /** The new sequence number, and the delta that carries it. */
    method BumpAndPush(eventId: int, change: Change) returns (outcome: ApplyOutcome)
      requires eventId in store
      modifies this`store
      ensures store == old(store)[eventId := Pushed(old(store)[eventId], change).0]
      ensures outcome == Pushed(old(store)[eventId], change).1
    {
      var cache := store[eventId];
      if cache.seqNo >= MAX_SEQ {
        assert store == store[eventId := cache];
        return SeqOverflow;
      }
      cache := cache.(seqNo := cache.seqNo + 1);
      var delta := EncodeSparse(cache.seqNo, [change]);
      cache := cache.(ring := Trimmed([delta] + cache.ring));
      store := store[eventId := cache];
      return Changed;
    }

    method MarkProcessed(id: nat, unmarkable: set<nat>)
      modifies this`processed
      ensures processed == if id in unmarkable then old(processed) else old(processed) + {id}
    {
      if id !in unmarkable {
        processed := processed + {id};
      }
    }

    /** One listed event, up to but not including its mark. */
    method ConsumeOne(evt: DomainEvent, db: map<int, seq<SeatRow>>, down: set<nat>) returns (outcome: Consumed)
      requires Valid() && Fits(store, layout, db)
      modifies this`ordinals, this`store
      ensures Valid()
      ensures (store, ordinals.Keys, outcome) == Consume(old(store), old(ordinals).Keys, layout, db, evt, down)
    {
      var newState := StateForEventType(evt.eventType);
      if newState.None? || evt.payload.None? { return Ignored; }
      var p := evt.payload.value;
      var ordinal := OrdinalOf(p.eventId, p.seatId, evt.id in down);
      if ordinal.None? { return Ignored; }
      var applied := Apply(p.eventId, ordinal.value, newState.value, db[p.eventId]);
      outcome := match applied case Unchanged => NoOp case Changed => Projected case SeqOverflow => Failed;
    }

    /** One event's turn: consumed, and marked unless it could not be applied. */
    method TakeOne(evt: DomainEvent, db: map<int, seq<SeatRow>>, trouble: Trouble, applied: nat)
      returns (applied': nat, failed: bool)
      requires Valid() && Fits(store, layout, db)
      modifies this
      ensures Valid()
      ensures Batch(store, ordinals.Keys, processed, applied', failed)
              == ConsumeNext(Batch(old(store), old(ordinals).Keys, old(processed), applied, false), layout, db, evt,
                             trouble)
    {
      var outcome := ConsumeOne(evt, db, trouble.down);
      if outcome == Failed { return applied, true; }
      MarkProcessed(evt.id, trouble.unmarkable);
      return if outcome == Projected then applied + 1 else applied, false;
    }

    /** One batch of listed events: how many were consumed and how many changed
        a bitset, stopping at an event that could not be applied. */
    method RunOnce(events: seq<DomainEvent>, db: map<int, seq<SeatRow>>, trouble: Trouble)
      returns (consumed: nat, applied: nat, failed: bool)
      requires Valid() && Fits(store, layout, db)
      modifies this
      ensures Valid() && consumed == |events|
      ensures Batch(store, ordinals.Keys, processed, applied, failed)
              == ConsumeAll(Batch(old(store), old(ordinals).Keys, old(processed), 0, false), layout, db, events, 0,
                            trouble)
    {
      consumed, applied, failed := |events|, 0, false;
      for i := 0 to |events|
        invariant Valid() && Fits(store, layout, db)
        invariant ConsumeAll(Batch(store, ordinals.Keys, processed, applied, false), layout, db, events, i, trouble)
                  == ConsumeAll(Batch(old(store), old(ordinals).Keys, old(processed), 0, false), layout, db, events,
                                0, trouble)
      {
        applied, failed := TakeOne(events[i], db, trouble, applied);
        if failed {
          FailureSticks(Batch(store, ordinals.Keys, processed, applied, true), layout, db, events, i + 1, trouble);
          return;
        }
      }
    }

    /** One frame for a client that last saw sinceSeq, or a resync. */
    method GapFill(eventId: int, sinceSeq: u64) returns (r: Result<Fill, ProtoError>)
      ensures r == GapFilled(if eventId in store then store[eventId] else Cache([], 0, []), sinceSeq)
    {
      var cache := if eventId in store then store[eventId] else Cache([], 0, []);
      var currentSeq := cache.seqNo;
      if sinceSeq >= currentSeq { return Ok(CaughtUp); }
      var decoded := FramesAbove(cache.ring, sinceSeq);
      if decoded.Err? { return Err(decoded.error); }
      var wanted := decoded.value;
      if |wanted| == 0 { return Ok(Resync); }
      if wanted[|wanted| - 1].seqNo != sinceSeq + 1 { return Ok(Resync); }
      var changes := Fold(wanted);
      var frame := EncodeSparse(currentSeq, changes);
      return Ok(Combined(frame));
    }
  }

  function NewerOf(decoded: Result<seq<Frame>, ProtoError>, since: u64): Result<seq<Frame>, ProtoError> {
    if decoded.Err? then Err(decoded.error) else Ok(Newer(decoded.value, since))
  }

  /** The ring's frames above a sequence number, or the error of the first that does not decode. */
  method FramesAbove(raw: seq<seq<u8>>, sinceSeq: u64) returns (r: Result<seq<Frame>, ProtoError>)
    ensures r == NewerOf(DecodeAll(raw), sinceSeq)
  {
    var wanted: seq<Frame> := [];
    ghost var all: seq<Frame> := [];
    for i := 0 to |raw|
      invariant DecodeAll(raw[..i]) == Ok(all)
      invariant wanted == Newer(all, sinceSeq)
    {
      DecodeAllNext(raw, i, all);
      var d := Decode(raw[i]);
      match d
      case Err(e) =>
        DecodeErrorSticks(raw, i + 1, e);
        return Err(e);
      case Ok(f) =>
        NewerNext(all, f, sinceSeq);
        if f.seqNo > sinceSeq { wanted := wanted + [f]; }
        all := all + [f];
    }
    assert raw[..|raw|] == raw;
    return Ok(wanted);
  }

  lemma DecodeAllNext(ring: seq<seq<u8>>, i: nat, fs: seq<Frame>)
    requires i < |ring| && DecodeAll(ring[..i]) == Ok(fs)
    ensures DecodeAll(ring[..i + 1]) == match Decoded(ring[i]) case Err(e) => Err(e) case Ok(f) => Ok(fs + [f])
  {
    assert ring[..i + 1][..i] == ring[..i];
  }

  lemma NewerNext(fs: seq<Frame>, f: Frame, since: u64)
    ensures Newer(fs + [f], since) == if f.seqNo > since then Newer(fs, since) + [f] else Newer(fs, since)
  {
    assert (fs + [f])[..|fs|] == fs;
  }

  lemma {:induction false} DecodeErrorSticks(ring: seq<seq<u8>>, n: nat, e: ProtoError)
    requires n <= |ring| && DecodeAll(ring[..n]) == Err(e)
    ensures DecodeAll(ring) == Err(e)
  {
    if n == |ring| {
      assert ring[..n] == ring;
    } else {
      var init := ring[..|ring| - 1];
      assert init[..n] == ring[..n];
      DecodeErrorSticks(init, n, e);
    }
  }

  /** order and byOrdinal together hold the coalesced changes. */
  ghost predicate Holds(order: seq<u32>, byOrdinal: map<u32, u8>, cs: seq<Change>) {
    && |order| == |cs|
    && byOrdinal.Keys == (set o | o in order)
    && forall i | 0 <= i < |cs| :: order[i] in byOrdinal && cs[i] == Change(order[i], byOrdinal[order[i]])
  }

  lemma CoalescedSnoc(cs: seq<Change>, ch: Change)
    ensures var r, i := Coalesced(cs), IndexOf(Coalesced(cs), ch.ordinal);
            Coalesced(cs + [ch]) == if i < |r| then r[i := ch] else r + [ch]
  {
    assert (cs + [ch])[..|cs|] == cs;
  }

  lemma HoldsReplaced(order: seq<u32>, byOrdinal: map<u32, u8>, r: seq<Change>, i: nat, ch: Change)
    requires Holds(order, byOrdinal, r) && DistinctOrdinals(r) && i < |r| && r[i].ordinal == ch.ordinal
    ensures Holds(order, byOrdinal[ch.ordinal := ch.state], r[i := ch])
  {
  }

  lemma HoldsAppended(order: seq<u32>, byOrdinal: map<u32, u8>, r: seq<Change>, ch: Change)
    requires Holds(order, byOrdinal, r) && forall c | c in r :: c.ordinal != ch.ordinal
    ensures ch.ordinal !in byOrdinal
    ensures Holds(order + [ch.ordinal], byOrdinal[ch.ordinal := ch.state], r + [ch])
  {
    forall i | 0 <= i < |r| ensures order[i] != ch.ordinal {
      assert r[i] in r;
    }
  }

  lemma HoldsNext(order: seq<u32>, byOrdinal: map<u32, u8>, cs: seq<Change>, ch: Change)
    requires Holds(order, byOrdinal, Coalesced(cs))
    ensures Holds(if ch.ordinal in byOrdinal then order else order + [ch.ordinal],
                  byOrdinal[ch.ordinal := ch.state], Coalesced(cs + [ch]))
  {
    var r := Coalesced(cs);
    var i := IndexOf(r, ch.ordinal);
    CoalescedSnoc(cs, ch);
    if i < |r| {
      CoalescedDistinct(cs);
      assert order[i] == ch.ordinal;
      HoldsReplaced(order, byOrdinal, r, i, ch);
    } else {
      HoldsAppended(order, byOrdinal, r, ch);
    }
  }

  /** One change folded in. */
  method FoldChange(order: seq<u32>, byOrdinal: map<u32, u8>, ch: Change, ghost done: seq<Change>)
    returns (order': seq<u32>, byOrdinal': map<u32, u8>)
    requires Holds(order, byOrdinal, Coalesced(done))
    ensures Holds(order', byOrdinal', Coalesced(done + [ch]))
  {
    HoldsNext(order, byOrdinal, done, ch);
    order' := if ch.ordinal in byOrdinal then order else order + [ch.ordinal];
    byOrdinal' := byOrdinal[ch.ordinal := ch.state];
  }

  lemma GrowSlice<T>(before: seq<T>, xs: seq<T>, j: nat)
    requires j < |xs|
    ensures before + xs[..j + 1] == before + xs[..j] + [xs[j]]
  {
  }

  /** order and byOrdinal hold what the changes fold to. */
  ghost predicate HoldsAll(order: seq<u32>, byOrdinal: map<u32, u8>, cs: seq<Change>) {
    Holds(order, byOrdinal, Coalesced(cs))
  }

  /** One frame's changes folded in, last write winning per ordinal. */
  method FoldFrame(order: seq<u32>, byOrdinal: map<u32, u8>, chs: seq<Change>, ghost before: seq<Change>)
    returns (order': seq<u32>, byOrdinal': map<u32, u8>)
    requires HoldsAll(order, byOrdinal, before)
    ensures HoldsAll(order', byOrdinal', before + chs)
  {
    order', byOrdinal' := order, byOrdinal;
    ghost var done := before;
    assert before + chs[..0] == before;
    for j := 0 to |chs|
      invariant done == before + chs[..j]
      invariant HoldsAll(order', byOrdinal', done)
    {
      order', byOrdinal' := FoldChange(order', byOrdinal', chs[j], done);
      GrowSlice(before, chs, j);
      done := done + [chs[j]];
    }
    assert chs[..|chs|] == chs;
  }

  /** The newest-first frames folded into one change per ordinal. */
  method Fold(wanted: seq<Frame>) returns (changes: seq<Change>)
    ensures changes == Coalesced(OldestFirst(wanted))
  {
    var byOrdinal: map<u32, u8> := map[];
    var order: seq<u32> := [];
    var i := |wanted|;
    while i > 0
      invariant 0 <= i <= |wanted|
      invariant HoldsAll(order, byOrdinal, OldestFirst(wanted[i..]))
    {
      i := i - 1;
      assert wanted[i..][1..] == wanted[i + 1..];
      order, byOrdinal := FoldFrame(order, byOrdinal, ChangesOf(wanted[i]), OldestFirst(wanted[i + 1..]));
    }
    assert wanted[0..] == wanted;
    changes := seq(|order|, k requires 0 <= k < |order| && order[k] in byOrdinal => Change(order[k], byOrdinal[order[k]]));
  }
}
