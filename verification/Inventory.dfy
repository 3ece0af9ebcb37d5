/** The inventory service: the sole writer of seat state. */
module Inventory {
  import opened Wrappers
  import opened Sorting
  import opened EventSeats
  import opened Holdlock

  datatype HeldSeat = HeldSeat(seat: int, ordinal: nat, fence: nat, price: int)
  datatype Hold = Hold(hold: HoldId, event: int, expires: Time, seats: seq<HeldSeat>)

  datatype HoldError =
    | SeatTaken(conflicts: seq<int>)
    | TooManySeats
    | DuplicateSeat
    | NoSeats
    | NoContiguousSeats
    | HoldExpired
    | LengthMismatch
    | DatabaseError

  /** Where a transaction can break; it is then rolled back. */
  datatype DbFault = BeginFails | StatementFails | PublishFails | CommitFails

  /** The seats for which Redis does not answer an acquire or a release, and the
      database's fault if it has one. */
  datatype Faults = Faults(lockDown: set<int>, unlockDown: set<int>, db: Option<DbFault>)

  // ---- Lists of seats ----

  /** Ascending and without repeats. */
  function Normalised(ids: seq<int>): (r: seq<int>) {
    Compacted(Sorted(ids))
  }

  lemma NormalisedSound(ids: seq<int>)
    ensures StrictlyAscending(Normalised(ids))
    ensures forall x :: x in Normalised(ids) <==> x in ids
    ensures |Normalised(ids)| < |ids| <==> !NoDuplicates(ids)
  {
    SortedSound(ids);
    CompactedKeeps(Sorted(ids));
    CompactedAscends(Sorted(ids));
    SortedDuplicates(ids);
  }

  lemma SortedDuplicates(ids: seq<int>)
    ensures StrictlyAscending(Sorted(ids)) <==> NoDuplicates(ids)
  {
    SortedSound(ids);
    var s := Sorted(ids);
    if NoDuplicates(ids) {
      ListingSize(0, ids);
      assert Listing(0, s) == Listing(0, ids);
      ListingSize(0, s);
      assert NoDuplicates(s);
      forall i, j | 0 <= i < j < |s| ensures s[i] < s[j] { assert s[i] != s[j]; }
    }
    if StrictlyAscending(s) {
      assert NoDuplicates(s);
      ListingSize(0, s);
      assert Listing(0, s) == Listing(0, ids);
      ListingSize(0, ids);
    }
  }

  /** Compaction in place: the survivors move to the front of the same array. */
  method Compact(a: array<int>) returns (n: nat, hadDupes: bool)
    modifies a
    ensures n <= a.Length && a[..n] == Compacted(old(a[..]))
    ensures hadDupes <==> n < a.Length
  {
    ghost var s, kept: seq<int> := a[..], [];
    var prev, first := -1, true;
    n, hadDupes := 0, false;
    for i := 0 to a.Length
      invariant n == |kept| <= i && (hadDupes <==> n < i)
      invariant a[..n] == kept == Compacted(s[..i])
      invariant forall k | i <= k < a.Length :: a[k] == s[k]
      invariant if first then kept == [] else kept != [] && prev == kept[n - 1]
    {
      var id := a[i];
      assert s[..i + 1] == s[..i] + [id];
      CompactedSnoc(s[..i], id);
      if !first && id == prev {
        hadDupes := true;
      } else {
        a[n] := id;
        kept := kept + [id];
        n := n + 1;
        prev, first := id, false;
      }
    }
    assert s[..a.Length] == s;
  }

  method SortDedup(ids: seq<int>) returns (sorted: seq<int>, hadDupes: bool)
    ensures sorted == Normalised(ids)
    ensures hadDupes <==> !NoDuplicates(ids)
  {
    var s := Sorted(ids);
    var cp := new int[|s|](i requires 0 <= i < |s| => s[i]);
    assert cp[..] == s;
    var n;
    n, hadDupes := Compact(cp);
    sorted := cp[..n];
    NormalisedSound(ids);
  }

  function Pairs(seats: seq<int>, fences: seq<int>): (ps: seq<(int, int)>)
    requires |seats| == |fences|
    ensures |ps| == |seats|
    ensures forall i | 0 <= i < |seats| :: ps[i] == (seats[i], fences[i])
  {
    seq(|seats|, i requires 0 <= i < |seats| => (seats[i], fences[i]))
  }

  function SeatOf(p: (int, int)): int { p.0 }

  /** Both lists reordered by seat, each fence staying with its seat. */
  method SortSeatsAndFencesTogether(seats: array<int>, fences: array<int>)
    requires seats != fences && seats.Length == fences.Length
    modifies seats, fences
    ensures Pairs(seats[..], fences[..]) == SortedBy(Pairs(old(seats[..]), old(fences[..])), SeatOf)
    ensures Ascending(seats[..])
    ensures multiset(Pairs(seats[..], fences[..])) == multiset(Pairs(old(seats[..]), old(fences[..])))
  {
    ghost var before := Pairs(seats[..], fences[..]);
    var sorted := SortedBy(Pairs(seats[..], fences[..]), SeatOf);
    SortedBySound(before, SeatOf);
    for i := 0 to seats.Length
      invariant forall k | 0 <= k < i :: (seats[k], fences[k]) == sorted[k]
    {
      seats[i] := sorted[i].0;
      fences[i] := sorted[i].1;
    }
    assert Pairs(seats[..], fences[..]) == sorted;
    forall i, j | 0 <= i < j < seats.Length ensures seats[i] <= seats[j] {
      assert SeatOf(sorted[i]) <= SeatOf(sorted[j]);
    }
  }

  /** Reordering pairs does not change what a confirm matches. */
  lemma PairsDecideConfirm(t: Table, event: int, seats: seq<int>, fences: seq<int>, seats': seq<int>, fences': seq<int>,
                           hold: HoldId, order: OrderId, now: Time)
    requires |seats| == |fences| && |seats'| == |fences'|
    requires multiset(Pairs(seats, fences)) == multiset(Pairs(seats', fences'))
    ensures |seats| == |seats'|
    ensures forall s, f :: FenceOffered(seats, fences, s, f) <==> FenceOffered(seats', fences', s, f)
    ensures Confirmed(t, event, seats', fences', hold, order, now) == Confirmed(t, event, seats, fences, hold, order, now)
    ensures ConfirmCount(t, event, seats', fences', hold, now) == ConfirmCount(t, event, seats, fences, hold, now)
  {
    assert |multiset(Pairs(seats, fences))| == |multiset(Pairs(seats', fences'))|;
    forall s, f ensures FenceOffered(seats, fences, s, f) <==> FenceOffered(seats', fences', s, f) {
      OfferedIsMember(seats, fences, s, f);
      OfferedIsMember(seats', fences', s, f);
    }
    assert (set k | k in t && ConfirmHits(t, event, seats, fences, hold, now, k))
        == (set k | k in t && ConfirmHits(t, event, seats', fences', hold, now, k));
  }

  lemma OfferedIsMember(seats: seq<int>, fences: seq<int>, s: int, f: int)
    requires |seats| == |fences|
    ensures FenceOffered(seats, fences, s, f) <==> (s, f) in multiset(Pairs(seats, fences))
  {
    if FenceOffered(seats, fences, s, f) {
      var i :| 0 <= i < |seats| && seats[i] == s && fences[i] == f;
      assert Pairs(seats, fences)[i] == (s, f);
    }
    if (s, f) in multiset(Pairs(seats, fences)) {
      var i :| 0 <= i < |seats| && Pairs(seats, fences)[i] == (s, f);
    }
  }

  /** Every seat, listed once, is on this hold with its offered fence and unexpired. */
  predicate AllConfirmable(t: Table, event: int, seats: seq<int>, fences: seq<int>, hold: HoldId, now: Time)
    requires |seats| == |fences|
  {
    && NoDuplicates(seats)
    && forall i | 0 <= i < |seats| :: Key(event, seats[i]) in t && Confirmable(t[Key(event, seats[i])], hold, fences[i], now)
  }

  // ---- The contention filter around an acquire ----

  /** The keys a set of seats adds for a hold. */
  ghost predicate OwnsExactly(owners: map<Key, HoldId>, before: map<Key, HoldId>, event: int, mine: set<int>,
                              hold: HoldId) {
    && (forall k | k in before :: k in owners && owners[k] == before[k])
    && (forall k | k in owners && k !in before :: k.event == event && k.seat in mine && owners[k] == hold)
    && (forall s | s in mine :: Key(event, s) in owners && Key(event, s) !in before)
  }

  function SeatSet(seats: seq<int>): set<int> {
    set s | s in seats
  }

  /** The seats whose row did not match, in order. */
  function Losers(t: Table, event: int, seats: seq<int>, now: Time): (ls: seq<int>)
    ensures forall s :: s in ls <==> s in seats && !(Key(event, s) in t && Holdable(t[Key(event, s)], now))
  {
    if seats == [] then []
    else
      var init, last := Losers(t, event, seats[..|seats| - 1], now), seats[|seats| - 1];
      assert seats == seats[..|seats| - 1] + [last];
      if Key(event, last) in t && Holdable(t[Key(event, last)], now) then init else init + [last]
  }

  function HeldSeats(t: Table, event: int, seats: seq<int>): (hs: seq<HeldSeat>)
    requires forall s | s in seats :: Key(event, s) in t
    ensures |hs| == |seats|
    ensures forall i | 0 <= i < |seats| ::
              hs[i] == var r := t[Key(event, seats[i])];
                  HeldSeat(seats[i], r.ordinal, r.fence, if r.holdPrice.Some? then r.holdPrice.value else 0)
  {
    seq(|seats|, i requires 0 <= i < |seats| =>
      var r := t[Key(event, seats[i])]; HeldSeat(seats[i], r.ordinal, r.fence,
                                                 if r.holdPrice.Some? then r.holdPrice.value else 0))
  }

  lemma OwnsOneMore(owners: map<Key, HoldId>, before: map<Key, HoldId>, event: int, mine: set<int>, hold: HoldId,
                    s: int)
    requires OwnsExactly(owners, before, event, mine, hold) && Key(event, s) !in owners
    ensures OwnsExactly(owners[Key(event, s) := hold], before, event, mine + {s}, hold)
  {
  }

  /** A key of a seat not yet taken is owned exactly when it was before. */
  lemma NextKey(owners: map<Key, HoldId>, before: map<Key, HoldId>, event: int, ids: seq<int>, n: nat, hold: HoldId)
    requires StrictlyAscending(ids) && n < |ids| && OwnsExactly(owners, before, event, SeatSet(ids[..n]), hold)
    ensures Key(event, ids[n]) in owners <==> Key(event, ids[n]) in before
    ensures SeatSet(ids[..n + 1]) == SeatSet(ids[..n]) + {ids[n]} && ids[..n + 1] == ids[..n] + [ids[n]]
  {
    assert ids[..n + 1] == ids[..n] + [ids[n]];
    assert forall s | s in ids[..n] :: s < ids[n];
  }

  /** Nobody lost a key, and the only new ones are this hold's, on seats Redis would
      not take back. */
  ghost predicate OnlyStrays(owners: map<Key, HoldId>, before: map<Key, HoldId>, event: int, unlockDown: set<int>,
                             hold: HoldId) {
    && (forall k | k in before :: k in owners && owners[k] == before[k])
    && (forall k | k in owners && k !in before :: k.event == event && k.seat in unlockDown && owners[k] == hold)
  }

  /** With Redis answering every release, a failed attempt leaves no trace there. */
  lemma NoStrays(owners: map<Key, HoldId>, before: map<Key, HoldId>, event: int, hold: HoldId)
    ensures OnlyStrays(owners, before, event, {}, hold) <==> owners == before
  {
  }

  /** How many keys an attempt takes: it stops at a seat Redis does not answer for
      or somebody else holds the key of. */
  function Taken(owners: map<Key, HoldId>, event: int, seats: seq<int>, lockDown: set<int>): (n: nat)
    ensures n <= |seats|
    ensures forall i | 0 <= i < n :: seats[i] !in lockDown && Key(event, seats[i]) !in owners
    ensures n < |seats| ==> seats[n] in lockDown || Key(event, seats[n]) in owners
  {
    if seats == [] || seats[0] in lockDown || Key(event, seats[0]) in owners then 0
    else 1 + Taken(owners, event, seats[1..], lockDown)
  }

  /** The seat whose key somebody else holds, if that is what stopped the attempt. */
  function Blocker(owners: map<Key, HoldId>, event: int, seats: seq<int>, lockDown: set<int>): (b: Option<int>)
    ensures b.Some? ==> b.value in seats && Key(event, b.value) in owners
  {
    var n := Taken(owners, event, seats, lockDown);
    if n < |seats| && seats[n] !in lockDown then Some(seats[n]) else None
  }

  /** The result of asking for a hold, in the order the checks are made. */
  function AcquireResult(t: Table, owners: map<Key, HoldId>, event: int, ids: seq<int>, user: string, hold: HoldId,
                         now: Time, ttl: int, maxSeats: nat, faults: Faults): (r: Result<Hold, HoldError>)
  {
    var seats := Normalised(ids);
    if !NoDuplicates(ids) then Err(DuplicateSeat)
    else if seats == [] then Err(NoSeats)
    else if |seats| > maxSeats then Err(TooManySeats)
    else TakeResult(t, owners, event, seats, user, hold, now, ttl, faults)
  }

  /** Once the seats are in order: the keys decide first, then the transaction. */
  function TakeResult(t: Table, owners: map<Key, HoldId>, event: int, seats: seq<int>, user: string, hold: HoldId,
                      now: Time, ttl: int, faults: Faults): Result<Hold, HoldError>
  {
    if Blocker(owners, event, seats, faults.lockDown).Some? then
      Err(SeatTaken([Blocker(owners, event, seats, faults.lockDown).value]))
    else AcquireCommits(t, event, seats, user, hold, now, ttl, faults.db)
  }

  /** The hold as returned: the columns of its rows after the update. */
  function Handed(t: Table, event: int, seats: seq<int>, hold: HoldId, user: string, now: Time, ttl: int): Hold
    requires forall s | s in seats :: Key(event, s) in t
  {
    Hold(hold, event, now + ttl, HeldSeats(Acquired(t, event, seats, hold, user, now, ttl), event, seats))
  }

  /** What the transaction answers: the seats that did not match, or the hold. */
  function AcquireCommits(t: Table, event: int, seats: seq<int>, user: string, hold: HoldId, now: Time, ttl: int,
                          db: Option<DbFault>): Result<Hold, HoldError>
  {
    if db == Some(BeginFails) || db == Some(StatementFails) then Err(DatabaseError)
    else if Losers(t, event, seats, now) != [] then Err(SeatTaken(Losers(t, event, seats, now)))
    else if db.Some? then Err(DatabaseError)
    else
      NoLosers(t, event, seats, now);
      Ok(Handed(t, event, seats, hold, user, now, ttl))
  }

  lemma NoLosers(t: Table, event: int, seats: seq<int>, now: Time)
    ensures Losers(t, event, seats, now) == []
            <==> forall s | s in seats :: Key(event, s) in t && Holdable(t[Key(event, s)], now)
  {
    var ls := Losers(t, event, seats, now);
    if ls != [] { assert ls[0] in ls; }
    if s :| s in seats && !(Key(event, s) in t && Holdable(t[Key(event, s)], now)) { assert s in ls; }
  }

  /** The keys left once a hold has given back those of some seats; the store does not
      answer for the seats in down. */
  function KeysReleased(owners: map<Key, HoldId>, event: int, seats: seq<int>, hold: HoldId,
                        down: set<int>): map<Key, HoldId> {
    map k | k in owners && !(k.event == event && k.seat in seats && k.seat !in down && owners[k] == hold) :: owners[k]
  }

  lemma ReleasedNext(owners: map<Key, HoldId>, event: int, seats: seq<int>, n: nat, hold: HoldId, down: set<int>)
    requires n < |seats|
    ensures var now, k := KeysReleased(owners, event, seats[..n], hold, down), Key(event, seats[n]);
            KeysReleased(owners, event, seats[..n + 1], hold, down)
            == if seats[n] !in down && k in now && now[k] == hold then now - {k} else now
  {
    var now, k := KeysReleased(owners, event, seats[..n], hold, down), Key(event, seats[n]);
    assert seats[..n + 1] == seats[..n] + [seats[n]];
    var next := KeysReleased(owners, event, seats[..n + 1], hold, down);
    assert forall j | j in owners && j != k :: j in next <==> j in now;
  }

  lemma ReleasedStrays(owners: map<Key, HoldId>, before: map<Key, HoldId>, event: int, seats: seq<int>, hold: HoldId,
                       down: set<int>)
    requires OwnsExactly(owners, before, event, SeatSet(seats), hold)
    ensures OnlyStrays(KeysReleased(owners, event, seats, hold, down), before, event, down, hold)
  {
    forall k: Key | k.event == event && k.seat in seats ensures k !in before {
      assert k.seat in SeatSet(seats);
      assert k == Key(event, k.seat);
    }
  }

  /** Nobody holds a key of these seats, and every row can be held. */
  ghost predicate Obtainable(t: Table, owners: map<Key, HoldId>, event: int, ids: seq<int>, now: Time) {
    forall s | s in ids :: Key(event, s) !in owners && Key(event, s) in t && Holdable(t[Key(event, s)], now)
  }

  /** With keys and database answering, a hold is granted exactly when all of its seats
      can be had; otherwise some of them are taken. */
  lemma GrantedIff(t: Table, owners: map<Key, HoldId>, event: int, ids: seq<int>, user: string, hold: HoldId,
                   now: Time, ttl: int, maxSeats: nat, unlockDown: set<int>)
    requires NoDuplicates(ids) && ids != [] && |ids| <= maxSeats
    ensures var r := AcquireResult(t, owners, event, ids, user, hold, now, ttl, maxSeats, Faults({}, unlockDown, None));
            (r.Ok? <==> Obtainable(t, owners, event, ids, now)) && (r.Err? ==> r.error.SeatTaken?)
  {
    NormalisedSound(ids);
    assert ids[0] in Normalised(ids);
    NormalisedSize(ids);
    TakenIff(t, owners, event, Normalised(ids), user, hold, now, ttl, unlockDown);
    SameObtainable(t, owners, event, ids, Normalised(ids), now);
  }

  /** Whose key or row is in the way: one seat with a key of somebody else, or exactly the
      seats whose row cannot be held. */
  ghost predicate ExactConflicts(t: Table, owners: map<Key, HoldId>, event: int, ids: seq<int>, now: Time,
                                 conflicts: seq<int>) {
    || (exists s :: s in ids && Key(event, s) in owners && conflicts == [s])
    || (conflicts != [] && forall s :: s in conflicts <==> s in ids && !(Key(event, s) in t && Holdable(t[Key(event, s)], now)))
  }

  lemma TakeRefusedBecause(t: Table, owners: map<Key, HoldId>, event: int, seats: seq<int>, user: string,
                           hold: HoldId, now: Time, ttl: int, faults: Faults)
    ensures var r := TakeResult(t, owners, event, seats, user, hold, now, ttl, faults);
            && (r.Ok? ==> faults.db.None?)
            && (r.Err? ==> r.error.SeatTaken? || r.error.DatabaseError?)
            && (r == Err(DatabaseError) <==>
                  && Blocker(owners, event, seats, faults.lockDown).None? && faults.db.Some?
                  && (faults.db == Some(BeginFails) || faults.db == Some(StatementFails)
                      || forall s | s in seats :: Key(event, s) in t && Holdable(t[Key(event, s)], now)))
            && (r.Err? && r.error.SeatTaken? ==> ExactConflicts(t, owners, event, seats, now, r.error.conflicts))
  {
    NoLosers(t, event, seats, now);
  }

  lemma SameConflicts(t: Table, owners: map<Key, HoldId>, event: int, seats: seq<int>, ids: seq<int>, now: Time,
                      conflicts: seq<int>)
    requires ExactConflicts(t, owners, event, seats, now, conflicts) && forall x :: x in seats <==> x in ids
    ensures ExactConflicts(t, owners, event, ids, now, conflicts)
  {
  }

  /** Why a hold is refused, for every input. */
  lemma RefusedBecause(t: Table, owners: map<Key, HoldId>, event: int, ids: seq<int>, user: string, hold: HoldId,
                       now: Time, ttl: int, maxSeats: nat, faults: Faults)
    ensures var r := AcquireResult(t, owners, event, ids, user, hold, now, ttl, maxSeats, faults);
            && (r == Err(DuplicateSeat) <==> !NoDuplicates(ids))
            && (r == Err(NoSeats) <==> ids == [])
            && (r == Err(TooManySeats) <==> NoDuplicates(ids) && |ids| > maxSeats)
            && (r == Err(DatabaseError) <==>
                  && NoDuplicates(ids) && ids != [] && |ids| <= maxSeats
                  && Blocker(owners, event, Normalised(ids), faults.lockDown).None? && faults.db.Some?
                  && (faults.db == Some(BeginFails) || faults.db == Some(StatementFails)
                      || forall s | s in ids :: Key(event, s) in t && Holdable(t[Key(event, s)], now)))
            && (r.Ok? ==> faults.db.None?)
            && (r.Err? && r.error.SeatTaken? ==> ExactConflicts(t, owners, event, ids, now, r.error.conflicts))
  {
    var seats := Normalised(ids);
    var r := TakeResult(t, owners, event, seats, user, hold, now, ttl, faults);
    NormalisedSize(ids);
    TakeRefusedBecause(t, owners, event, seats, user, hold, now, ttl, faults);
    NormalisedSound(ids);
    if r.Err? && r.error.SeatTaken? {
      SameConflicts(t, owners, event, seats, ids, now, r.error.conflicts);
    }
  }

  lemma TakenIff(t: Table, owners: map<Key, HoldId>, event: int, seats: seq<int>, user: string, hold: HoldId,
                 now: Time, ttl: int, unlockDown: set<int>)
    ensures var r := TakeResult(t, owners, event, seats, user, hold, now, ttl, Faults({}, unlockDown, None));
            (r.Ok? <==> Obtainable(t, owners, event, seats, now)) && (r.Err? ==> r.error.SeatTaken?)
  {
    KeysFreeIff(owners, event, seats);
    NoLosers(t, event, seats, now);
  }

  lemma SameObtainable(t: Table, owners: map<Key, HoldId>, event: int, ids: seq<int>, seats: seq<int>, now: Time)
    requires forall x :: x in seats <==> x in ids
    ensures Obtainable(t, owners, event, ids, now) <==> Obtainable(t, owners, event, seats, now)
  {
  }

  lemma NormalisedSize(ids: seq<int>)
    ensures |Normalised(ids)| <= |ids| && (|Normalised(ids)| == |ids| <==> NoDuplicates(ids))
    ensures Normalised(ids) == [] <==> ids == []
  {
    NormalisedSound(ids);
    if ids != [] { assert ids[0] in Normalised(ids); }
  }

  lemma KeysFreeIff(owners: map<Key, HoldId>, event: int, seats: seq<int>)
    ensures Blocker(owners, event, seats, {}).None? <==> forall s | s in seats :: Key(event, s) !in owners
  {
    var n := Taken(owners, event, seats, {});
    if n < |seats| { assert seats[n] in seats; }
  }

  function FencesHanded(hold: Hold): (fences: seq<int>)
    ensures |fences| == |hold.seats|
  {
    seq(|hold.seats|, i requires 0 <= i < |hold.seats| => hold.seats[i].fence)
  }

  /** The hold as handed back says what its rows say: these seats in this order, each with
      the ordinal, fence and expiry its row has in the table, and its price locked. */
  ghost predicate HandsBack(t: Table, event: int, seats: seq<int>, user: string, id: HoldId, expires: Time, hold: Hold) {
    && hold.hold == id && hold.event == event && hold.expires == expires && |hold.seats| == |seats|
    && forall i | 0 <= i < |seats| ::
         var k, handed := Key(event, seats[i]), hold.seats[i];
         && k in t && handed.seat == seats[i] && handed.ordinal == t[k].ordinal && handed.fence == t[k].fence
         && OnHold(t[k]) && t[k].holdPrice == Some(handed.price) && handed.price == t[k].price
         && t[k].heldBy == Some(user) && t[k].expires == Some(expires) && t[k].hold == Some(id)
  }

  lemma HandedIsRows(t: Table, event: int, seats: seq<int>, user: string, hold: HoldId, now: Time, ttl: int)
    requires forall s | s in seats :: Key(event, s) in t && Holdable(t[Key(event, s)], now)
    ensures HandsBack(Acquired(t, event, seats, hold, user, now, ttl), event, seats, user, hold, now + ttl,
                      Handed(t, event, seats, hold, user, now, ttl))
  {
    forall i | 0 <= i < |seats| ensures Key(event, seats[i]) in t && Holdable(t[Key(event, seats[i])], now) {
      assert seats[i] in seats;
    }
  }

  /** With the fences of the hold every one of its seats can be booked until it expires,
      and then none. */
  ghost predicate ConfirmsUntilExpiry(t: Table, event: int, seats: seq<int>, hold: Hold)
    requires |hold.seats| == |seats|
  {
    forall at :: AllConfirmable(t, event, seats, FencesHanded(hold), hold.hold, at) <==> at < hold.expires
  }

  lemma HandedConfirms(t: Table, event: int, seats: seq<int>, user: string, hold: Hold)
    requires NoDuplicates(seats) && seats != [] && HandsBack(t, event, seats, user, hold.hold, hold.expires, hold)
    ensures ConfirmsUntilExpiry(t, event, seats, hold)
  {
    forall at ensures AllConfirmable(t, event, seats, FencesHanded(hold), hold.hold, at) <==> at < hold.expires {
      assert hold.seats[0].seat == seats[0];
    }
  }

  class Service {
    var seats: Table
    var outbox: seq<SeatEvent>
    const lock: Lock
    const holdTtl: int
    const maxSeatsPerHold: nat

    constructor (seats: Table, lock: Lock, holdTtl: int, maxSeatsPerHold: nat)
      ensures this.seats == seats && this.outbox == [] && this.lock == lock
      ensures this.holdTtl == holdTtl && this.maxSeatsPerHold == maxSeatsPerHold
    {
      this.seats, this.outbox, this.lock, this.holdTtl, this.maxSeatsPerHold := seats, [], lock, holdTtl, maxSeatsPerHold;
    }

    /** Best effort: the hold's keys of the seats the store answers for. */
    method ReleaseKeys(event: int, ids: seq<int>, hold: HoldId, unlockDown: set<int>)
      modifies lock
      ensures lock.owners == KeysReleased(old(lock.owners), event, ids, hold, unlockDown)
    {
      ghost var before := lock.owners;
      assert KeysReleased(before, event, ids[..0], hold, unlockDown) == before;
      for i := 0 to |ids|
        invariant lock.owners == KeysReleased(before, event, ids[..i], hold, unlockDown)
      {
        ReleasedNext(before, event, ids, i, hold, unlockDown);
        var _ := lock.Release(Key(event, ids[i]), hold, ids[i] in unlockDown);
      }
      assert ids[..|ids|] == ids;
    }

    /** Give back the keys of an attempt; those Redis does not answer for stay. */
    method ReleaseRedisBatch(event: int, acquired: seq<int>, hold: HoldId, unlockDown: set<int>,
                             ghost before: map<Key, HoldId>)
      requires OwnsExactly(lock.owners, before, event, SeatSet(acquired), hold)
      modifies lock
      ensures lock.owners == KeysReleased(old(lock.owners), event, acquired, hold, unlockDown)
      ensures OnlyStrays(lock.owners, before, event, unlockDown, hold)
    {
      ReleasedStrays(lock.owners, before, event, acquired, hold, unlockDown);
      ReleaseKeys(event, acquired, hold, unlockDown);
    }

    /** Take the keys in order until Redis stops answering or one is taken. */
    method AcquireRedisBatch(event: int, ids: seq<int>, hold: HoldId, lockDown: set<int>)
      returns (acquired: seq<int>, blocked: Option<int>)
      requires StrictlyAscending(ids)
      modifies lock
      ensures acquired == ids[..Taken(old(lock.owners), event, ids, lockDown)]
      ensures blocked == Blocker(old(lock.owners), event, ids, lockDown)
      ensures OwnsExactly(lock.owners, old(lock.owners), event, SeatSet(acquired), hold)
    {
      acquired, blocked := [], None;
      var i := 0;
      while i < |ids|
        invariant 0 <= i <= Taken(old(lock.owners), event, ids, lockDown)
        invariant acquired == ids[..i]
        invariant OwnsExactly(lock.owners, old(lock.owners), event, SeatSet(acquired), hold)
      {
        var s := ids[i];
        ghost var owners := lock.owners;
        NextKey(owners, old(lock.owners), event, ids, i, hold);
        var ok := lock.Acquire(Key(event, s), hold, s in lockDown);
        if ok.Err? { return; }
        if !ok.value {
          blocked := Some(s);
          return;
        }
        OwnsOneMore(owners, old(lock.owners), event, SeatSet(acquired), hold, s);
        acquired := acquired + [s];
        i := i + 1;
      }
    }

    /** The compare-and-set and its outbox rows, in one transaction. */
    method AcquireInDatabase(event: int, ids: seq<int>, user: string, hold: HoldId, now: Time, db: Option<DbFault>)
      returns (r: Result<Hold, HoldError>)
      requires NoDuplicates(ids)
      modifies this`seats, this`outbox
      ensures r == AcquireCommits(old(seats), event, ids, user, hold, now, holdTtl, db)
      ensures r.Err? ==> seats == old(seats) && outbox == old(outbox)
      ensures r.Ok? ==> seats == Acquired(old(seats), event, ids, hold, user, now, holdTtl)
      ensures r.Ok? ==> forall s | s in ids :: Key(event, s) in old(seats) && Holdable(old(seats)[Key(event, s)], now)
      ensures r.Ok? ==> outbox == old(outbox) + EventsFor(SeatHeld, event, ids)
      ensures r.Ok? ==> HandsBack(seats, event, ids, user, hold, now + holdTtl, r.value)
      ensures r.Ok? && ids != [] ==> ConfirmsUntilExpiry(seats, event, ids, r.value)
    {
      AcquireAllOrNothing(seats, event, ids, now);
      NoLosers(seats, event, ids, now);
      if db == Some(BeginFails) || db == Some(StatementFails) { return Err(DatabaseError); }
      if AcquireCount(seats, event, ids, now) != |ids| {
        return Err(SeatTaken(Losers(seats, event, ids, now)));
      }
      if db.Some? { return Err(DatabaseError); }
      var tx := AcquireTx(seats, event, ids, hold, user, now, holdTtl);
      seats, outbox := tx.table, outbox + tx.events;
      HandedIsRows(old(seats), event, ids, user, hold, now, holdTtl);
      r := Ok(Hold(hold, event, now + holdTtl, HeldSeats(seats, event, ids)));
      if ids != [] { HandedConfirms(seats, event, ids, user, r.value); }
    }

    /** The keys first, then the database, and the keys back when either refuses. */
    method TakeSeats(event: int, ids: seq<int>, user: string, hold: HoldId, now: Time, faults: Faults)
      returns (r: Result<Hold, HoldError>)
      requires StrictlyAscending(ids)
      modifies this`seats, this`outbox, lock
      ensures r == TakeResult(old(seats), old(lock.owners), event, ids, user, hold, now, holdTtl, faults)
      ensures r.Err? ==> seats == old(seats) && outbox == old(outbox)
      ensures r.Err? ==> OnlyStrays(lock.owners, old(lock.owners), event, faults.unlockDown, hold)
      ensures r.Ok? ==>
                && seats == Acquired(old(seats), event, ids, hold, user, now, holdTtl)
                && (forall s | s in ids :: Key(event, s) in old(seats) && Holdable(old(seats)[Key(event, s)], now))
                && outbox == old(outbox) + EventsFor(SeatHeld, event, ids)
                && OwnsExactly(lock.owners, old(lock.owners), event,
                               SeatSet(ids[..Taken(old(lock.owners), event, ids, faults.lockDown)]), hold)
      ensures r.Ok? ==> HandsBack(seats, event, ids, user, hold, now + holdTtl, r.value)
      ensures r.Ok? && ids != [] ==> ConfirmsUntilExpiry(seats, event, ids, r.value)
    {
      ghost var before := lock.owners;
      var acquired, blocked := AcquireRedisBatch(event, ids, hold, faults.lockDown);
      if blocked.Some? {
        ReleaseRedisBatch(event, acquired, hold, faults.unlockDown, before);
        return Err(SeatTaken([blocked.value]));
      }
      r := AcquireInDatabase(event, ids, user, hold, now, faults.db);
      if r.Err? {
        ReleaseRedisBatch(event, acquired, hold, faults.unlockDown, before);
      }
    }

    /** All the seats asked for, or nothing at all: on failure the table and the
        outbox are untouched and no key was added but those Redis would not take back. On
        success the hold handed back says what the rows now say, and with its fences every
        seat can be booked exactly until it expires. */
    method AcquireHold(event: int, seatIds: seq<int>, user: string, hold: HoldId, now: Time, faults: Faults)
      returns (r: Result<Hold, HoldError>)
      modifies this`seats, this`outbox, lock
      ensures r == AcquireResult(old(seats), old(lock.owners), event, seatIds, user, hold, now, holdTtl,
                                 maxSeatsPerHold, faults)
      ensures r.Err? ==> seats == old(seats) && outbox == old(outbox)
      ensures r.Err? ==> OnlyStrays(lock.owners, old(lock.owners), event, faults.unlockDown, hold)
      ensures r.Ok? ==>
                var ids := Normalised(seatIds);
                && seats == Acquired(old(seats), event, ids, hold, user, now, holdTtl)
                && (forall s | s in seatIds :: Key(event, s) in old(seats) && Holdable(old(seats)[Key(event, s)], now))
                && outbox == old(outbox) + EventsFor(SeatHeld, event, ids)
                && OwnsExactly(lock.owners, old(lock.owners), event,
                               SeatSet(ids[..Taken(old(lock.owners), event, ids, faults.lockDown)]), hold)
      ensures r.Ok? ==> HandsBack(seats, event, Normalised(seatIds), user, hold, now + holdTtl, r.value)
      ensures r.Ok? ==> ConfirmsUntilExpiry(seats, event, Normalised(seatIds), r.value)
    {
      var ids, hadDupes := SortDedup(seatIds);
      NormalisedSound(seatIds);
      if hadDupes { return Err(DuplicateSeat); }
      if |ids| == 0 { return Err(NoSeats); }
      if |ids| > maxSeatsPerHold { return Err(TooManySeats); }
      r := TakeSeats(event, ids, user, hold, now, faults);
    }

    /** Idempotent: a hold that is already gone is success and announces nothing. The
        hold's keys go whether or not the transaction commits. */
    method ReleaseHold(event: int, seatIds: seq<int>, hold: HoldId, faults: Faults) returns (r: Result<(), HoldError>)
      modifies this`seats, this`outbox, lock
      ensures r == if faults.db.None? || (faults.db == Some(PublishFails) && ReleaseCount(old(seats), event, Normalised(seatIds), hold) == 0)
                   then Ok(()) else Err(DatabaseError)
      ensures r.Err? ==> seats == old(seats) && outbox == old(outbox)
      ensures r.Ok? ==>
                var tx := ReleaseTx(old(seats), event, Normalised(seatIds), hold);
                seats == tx.table && outbox == old(outbox) + tx.events
      ensures lock.owners == KeysReleased(old(lock.owners), event, seatIds, hold, faults.unlockDown)
    {
      var ids, _ := SortDedup(seatIds);
      NormalisedSound(seatIds);
      assert KeysReleased(lock.owners, event, ids, hold, faults.unlockDown) == KeysReleased(lock.owners, event, seatIds, hold, faults.unlockDown);
      ReleaseKeys(event, ids, hold, faults.unlockDown);
      if faults.db == Some(BeginFails) || faults.db == Some(StatementFails) || faults.db == Some(CommitFails) {
        return Err(DatabaseError);
      }
      assert faults.db.Some? ==> faults.db.value.PublishFails?;
      var n := ReleaseCount(seats, event, ids, hold);
      if n > 0 && faults.db == Some(PublishFails) { return Err(DatabaseError); }
      var events := if n > 0 then EventsFor(SeatReleased, event, ids) else [];
      seats, outbox := Released(seats, event, ids, hold), outbox + events;
      return Ok(());
    }

    /** Extends what still matches, and says so when that is not every seat. */
    method ExtendHold(event: int, seatIds: seq<int>, hold: HoldId, secs: int, now: Time, failed: bool)
      returns (n: nat, r: Result<(), HoldError>)
      modifies this`seats
      ensures failed ==> n == 0 && r == Err(DatabaseError) && seats == old(seats)
      ensures !failed ==> n == ExtendCount(old(seats), event, seatIds, hold, now) && seats == Extended(old(seats), event, seatIds, hold, now, secs)
      ensures !failed ==>
                (r.Ok? <==> forall s | s in seatIds :: Key(event, s) in old(seats) && Extendable(old(seats)[Key(event, s)], hold, now))
      ensures !failed && r.Err? ==> r == Err(HoldExpired)
    {
      var ids, _ := SortDedup(seatIds);
      NormalisedSound(seatIds);
      if failed { return 0, Err(DatabaseError); }
      n := ExtendCount(seats, event, ids, hold, now);
      assert (set k | k in seats && ExtendHits(seats, event, ids, hold, now, k))
          == (set k | k in seats && ExtendHits(seats, event, seatIds, hold, now, k));
      ExtendAll(seats, event, ids, hold, now);
      seats := Extended(seats, event, ids, hold, now, secs);
      r := if n < |ids| then Err(HoldExpired) else Ok(());
    }

    /** Books every seat or none; the caller's two lists come back sorted together. */
    method ConfirmSeats(event: int, seatIds: array<int>, fences: array<int>, hold: HoldId, order: OrderId, now: Time,
                        fault: Option<DbFault>)
      returns (r: Result<(), HoldError>)
      requires seatIds != fences
      modifies this`seats, this`outbox, seatIds, fences
      ensures seatIds.Length != fences.Length ==> r == Err(LengthMismatch)
      ensures r.Err? ==> seats == old(seats) && outbox == old(outbox)
      ensures seatIds.Length == fences.Length ==>
                && multiset(Pairs(seatIds[..], fences[..])) == multiset(Pairs(old(seatIds[..]), old(fences[..])))
                && (r == Err(HoldExpired) <==>
                      fault != Some(BeginFails) && fault != Some(StatementFails)
                      && !AllConfirmable(old(seats), event, old(seatIds[..]), old(fences[..]), hold, now))
                && (r.Err? && r != Err(HoldExpired) ==> r == Err(DatabaseError))
                && (r.Ok? <==> fault.None? && AllConfirmable(old(seats), event, old(seatIds[..]), old(fences[..]), hold, now))
                && (r.Ok? ==> seats == Confirmed(old(seats), event, old(seatIds[..]), old(fences[..]), hold, order, now)
                              && outbox == old(outbox) + EventsFor(SeatBooked, event, seatIds[..]))
      ensures r.Ok? ==> Ascending(seatIds[..])
    {
      if seatIds.Length != fences.Length { return Err(LengthMismatch); }
      SortSeatsAndFencesTogether(seatIds, fences);
      PairsDecideConfirm(seats, event, old(seatIds[..]), old(fences[..]), seatIds[..], fences[..], hold, order, now);
      ConfirmAllOrNothing(seats, event, old(seatIds[..]), old(fences[..]), hold, now);
      if fault == Some(BeginFails) || fault == Some(StatementFails) { return Err(DatabaseError); }
      var n := ConfirmCount(seats, event, seatIds[..], fences[..], hold, now);
      if n != seatIds.Length { return Err(HoldExpired); }
      if fault.Some? { return Err(DatabaseError); }
      var tx := ConfirmTx(seats, event, seatIds[..], fences[..], hold, order, now);
      seats, outbox := tx.table, outbox + tx.events;
      return Ok(());
    }
  }
}
