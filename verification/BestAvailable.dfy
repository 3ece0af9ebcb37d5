/** Contiguous seats in one row at or under a price, and a bounded number of
    attempts to hold them. */
module BestAvailable {
  import opened Wrappers
  import opened EventSeats
  import opened Inventory

  const MAX_ATTEMPTS := 3

  datatype Candidate = Candidate(seat: int, ordinal: nat, rowId: int)

  predicate Offered(t: Table, event: int, maxPrice: int, seat: int) {
    var k := Key(event, seat);
    k in t && t[k].status == AVAILABLE && t[k].sellable && t[k].price <= maxPrice
  }

  /** The answer of the candidate query: every offered seat, by ordinal. */
  ghost predicate IsCandidateList(t: Table, event: int, maxPrice: int, cs: seq<Candidate>) {
    && (forall i, j | 0 <= i < j < |cs| :: cs[i].ordinal < cs[j].ordinal)
    && (forall i | 0 <= i < |cs| ::
          Offered(t, event, maxPrice, cs[i].seat)
          && t[Key(event, cs[i].seat)].ordinal == cs[i].ordinal && t[Key(event, cs[i].seat)].rowId == cs[i].rowId)
    && (forall seat | Offered(t, event, maxPrice, seat) :: exists i :: 0 <= i < |cs| && cs[i].seat == seat)
  }

  predicate Adjoins(prev: Candidate, cur: Candidate) {
    cur.rowId == prev.rowId && cur.ordinal == prev.ordinal + 1
  }

  predicate AdjoinsAt(cs: seq<Candidate>, start: nat, i: nat)
    requires 1 <= i && start + i < |cs|
  {
    Adjoins(cs[start + i - 1], cs[start + i])
  }

  predicate RunAt(cs: seq<Candidate>, start: nat, quantity: nat) {
    start + quantity <= |cs| && forall i | 1 <= i < quantity :: AdjoinsAt(cs, start, i)
  }

  function SeatsAt(cs: seq<Candidate>, start: nat, quantity: nat): (run: seq<int>)
    requires start + quantity <= |cs|
    ensures |run| == quantity && forall i | 0 <= i < quantity :: run[i] == cs[start + i].seat
  {
    seq(quantity, i requires 0 <= i < quantity => cs[start + i].seat)
  }

  /** The runs starting before index n, in order. */
  function RunsBefore(cs: seq<Candidate>, quantity: nat, n: nat): seq<seq<int>> {
    if n == 0 then []
    else if RunAt(cs, n - 1, quantity) then RunsBefore(cs, quantity, n - 1) + [SeatsAt(cs, n - 1, quantity)]
    else RunsBefore(cs, quantity, n - 1)
  }

  function Runs(cs: seq<Candidate>, quantity: nat): seq<seq<int>> {
    RunsBefore(cs, quantity, |cs| + 1)
  }

  lemma {:induction false} RunsBeforeMembers(cs: seq<Candidate>, quantity: nat, n: nat, run: seq<int>)
    ensures run in RunsBefore(cs, quantity, n)
            <==> exists start: nat :: start < n && RunAt(cs, start, quantity) && SeatsAt(cs, start, quantity) == run
  {
    if n > 0 { RunsBeforeMembers(cs, quantity, n - 1, run); }
  }

  lemma {:induction false} NoLateRuns(cs: seq<Candidate>, quantity: nat, n: nat, m: nat)
    requires n <= m && |cs| < n + quantity
    ensures RunsBefore(cs, quantity, m) == RunsBefore(cs, quantity, n)
  {
    if n < m { NoLateRuns(cs, quantity, n, m - 1); }
  }

  method FindContiguousRuns(cs: seq<Candidate>, quantity: nat) returns (runs: seq<seq<int>>)
    ensures runs == Runs(cs, quantity)
  {
    runs := [];
    var start := 0;
    while start + quantity <= |cs|
      invariant runs == RunsBefore(cs, quantity, start)
      invariant start <= |cs| + 1
    {
      var ok := true;
      var i := 1;
      while i < quantity
        invariant 1 <= i && (quantity > 0 ==> i <= quantity)
        invariant ok && forall k | 1 <= k < i && k < quantity :: AdjoinsAt(cs, start, k)
      {
        var prev, cur := cs[start + i - 1], cs[start + i];
        if cur.rowId != prev.rowId || cur.ordinal != prev.ordinal + 1 {
          ok := false;
          assert !AdjoinsAt(cs, start, i);
          break;
        }
        assert AdjoinsAt(cs, start, i);
        i := i + 1;
      }
      assert ok <==> RunAt(cs, start, quantity);
      if ok {
        var run := new int[quantity](i requires 0 <= i < quantity => cs[start + i].seat);
        assert run[..] == SeatsAt(cs, start, quantity);
        runs := runs + [run[..]];
      }
      start := start + 1;
    }
    NoLateRuns(cs, quantity, start, |cs| + 1);
  }

  /** Free, sellable, affordable seats side by side in one row. */
  ghost predicate Together(t: Table, event: int, maxPrice: int, run: seq<int>, rowId: int, first: int) {
    forall i | 0 <= i < |run| ::
      && Offered(t, event, maxPrice, run[i])
      && t[Key(event, run[i])].rowId == rowId
      && t[Key(event, run[i])].ordinal == first + i
  }

  /** The search is sound and complete: it returns exactly the groups of the asked
      size sitting together. */
  lemma RunsAreTogether(t: Table, event: int, maxPrice: int, cs: seq<Candidate>, quantity: nat, run: seq<int>)
    requires IsCandidateList(t, event, maxPrice, cs) && quantity > 0
    ensures run in Runs(cs, quantity)
            <==> |run| == quantity && exists rowId, first :: Together(t, event, maxPrice, run, rowId, first)
  {
    RunsBeforeMembers(cs, quantity, |cs| + 1, run);
    if run in Runs(cs, quantity) {
      var start: nat :| RunAt(cs, start, quantity) && SeatsAt(cs, start, quantity) == run;
      RunIsTogether(t, event, maxPrice, cs, quantity, start);
    }
    if |run| == quantity && exists rowId, first :: Together(t, event, maxPrice, run, rowId, first) {
      var rowId, first :| Together(t, event, maxPrice, run, rowId, first);
      var start := TogetherIsRun(t, event, maxPrice, cs, run, rowId, first);
    }
  }

  lemma RunIsTogether(t: Table, event: int, maxPrice: int, cs: seq<Candidate>, quantity: nat, start: nat)
    requires IsCandidateList(t, event, maxPrice, cs) && quantity > 0 && RunAt(cs, start, quantity)
    ensures start < |cs|
    ensures Together(t, event, maxPrice, SeatsAt(cs, start, quantity), cs[start].rowId, cs[start].ordinal)
  {
    var run := SeatsAt(cs, start, quantity);
    forall i | 0 <= i < |run|
      ensures Offered(t, event, maxPrice, run[i])
      ensures t[Key(event, run[i])].rowId == cs[start].rowId && t[Key(event, run[i])].ordinal == cs[start].ordinal + i
    {
      RunCounts(cs, start, quantity, i);
      assert run[i] == cs[start + i].seat;
    }
  }

  lemma TogetherIsRun(t: Table, event: int, maxPrice: int, cs: seq<Candidate>, run: seq<int>, rowId: int, first: int)
    returns (start: nat)
    requires IsCandidateList(t, event, maxPrice, cs) && run != [] && Together(t, event, maxPrice, run, rowId, first)
    ensures RunAt(cs, start, |run|) && SeatsAt(cs, start, |run|) == run
  {
    assert Offered(t, event, maxPrice, run[0]);
    start :| 0 <= start < |cs| && cs[start].seat == run[0];
    forall i: nat | i < |run| ensures Matches(cs, start, i, run[i], rowId, first) {
      GroupIsListed(t, event, maxPrice, cs, run, rowId, first, start, i);
    }
    MatchingIsRun(cs, run, rowId, first, start);
  }

  lemma MatchingIsRun(cs: seq<Candidate>, run: seq<int>, rowId: int, first: int, start: nat)
    requires run != [] && forall i: nat | i < |run| :: Matches(cs, start, i, run[i], rowId, first)
    ensures RunAt(cs, start, |run|) && SeatsAt(cs, start, |run|) == run
  {
    assert Matches(cs, start, |run| - 1, run[|run| - 1], rowId, first);
    forall i | 1 <= i < |run| ensures AdjoinsAt(cs, start, i) {
      assert Matches(cs, start, i - 1, run[i - 1], rowId, first) && Matches(cs, start, i, run[i], rowId, first);
    }
  }

  predicate InStep(cs: seq<Candidate>, start: nat, i: nat) {
    start + i < |cs| && cs[start + i].rowId == cs[start].rowId && cs[start + i].ordinal == cs[start].ordinal + i
  }

  predicate Matches(cs: seq<Candidate>, start: nat, i: nat, seat: int, rowId: int, first: int) {
    start + i < |cs| && cs[start + i] == Candidate(seat, cs[start + i].ordinal, rowId)
        && cs[start + i].ordinal == first + i
  }

  lemma {:induction false} RunCounts(cs: seq<Candidate>, start: nat, quantity: nat, i: nat)
    requires RunAt(cs, start, quantity) && i < quantity
    ensures InStep(cs, start, i)
  {
    if i > 0 {
      RunCounts(cs, start, quantity, i - 1);
      assert AdjoinsAt(cs, start, i);
    }
  }

  /** A seat of the group is in the list, and the list has nothing between it and the next. */
  lemma {:induction false} GroupIsListed(t: Table, event: int, maxPrice: int, cs: seq<Candidate>, run: seq<int>,
                                         rowId: int, first: int, start: nat, i: nat)
    requires IsCandidateList(t, event, maxPrice, cs) && Together(t, event, maxPrice, run, rowId, first)
    requires i < |run| && start < |cs| && cs[start].seat == run[0]
    ensures Matches(cs, start, i, run[i], rowId, first)
  {
    if i > 0 {
      GroupIsListed(t, event, maxPrice, cs, run, rowId, first, start, i - 1);
      assert Offered(t, event, maxPrice, run[i]);
      var j: nat :| j < |cs| && cs[j].seat == run[i];
      NextInList(cs, start + i - 1, j);
    }
  }

  lemma NextInList(cs: seq<Candidate>, p: nat, j: nat)
    requires forall a, b | 0 <= a < b < |cs| :: cs[a].ordinal < cs[b].ordinal
    requires p < |cs| && j < |cs| && cs[j].ordinal == cs[p].ordinal + 1
    ensures j == p + 1
  {
    if j <= p { OrdinalsSpread(cs, j, p); } else { OrdinalsSpread(cs, p, j); }
  }

  lemma {:induction false} OrdinalsSpread(cs: seq<Candidate>, i: nat, j: nat)
    requires forall a, b | 0 <= a < b < |cs| :: cs[a].ordinal < cs[b].ordinal
    requires i <= j < |cs|
    ensures cs[j].ordinal - cs[i].ordinal >= j - i
  {
    if i < j { OrdinalsSpread(cs, i, j - 1); }
  }

  // ---- Paying for a group ----

  function PriceOf(t: Table, event: int, seats: seq<int>): int
    requires forall s | s in seats :: Key(event, s) in t
  {
    if seats == [] then 0
    else
      assert seats[|seats| - 1] in seats;
      PriceOf(t, event, seats[..|seats| - 1]) + t[Key(event, seats[|seats| - 1])].price
  }

  /** Searching at the average price paid never finds a dearer group: with the
      division rounding down, quantity * (amount / quantity) <= amount. */
  lemma NeverDearer(t: Table, event: int, amount: nat, run: seq<int>, quantity: nat)
    requires quantity > 0 && |run| == quantity
    requires forall s | s in run :: Key(event, s) in t && Offered(t, event, amount / quantity, s)
    ensures PriceOf(t, event, run) <= amount
  {
    forall s | s in run ensures Key(event, s) in t && t[Key(event, s)].price <= amount / quantity {
      assert Offered(t, event, amount / quantity, s);
    }
    PriceBounded(t, event, amount / quantity, run);
    assert |run| * (amount / quantity) <= amount;
  }

  lemma {:induction false} PriceBounded(t: Table, event: int, each: int, seats: seq<int>)
    requires forall s | s in seats :: Key(event, s) in t && t[Key(event, s)].price <= each
    ensures PriceOf(t, event, seats) <= |seats| * each
  {
    if seats != [] {
      var init := seats[..|seats| - 1];
      assert seats[|seats| - 1] in seats;
      assert forall s | s in init :: s in seats;
      PriceBounded(t, event, each, init);
      assert |seats| * each == |init| * each + each;
    }
  }

  // ---- Bounded attempts ----

  /** Every seat of the run was free to hold and is now on this hold; no other row changed. */
  ghost predicate HeldRun(before: Table, after: Table, event: int, run: seq<int>, hold: HoldId, user: string,
                          now: Time, ttl: int, h: Hold) {
    && h.hold == hold && h.event == event && h.expires == now + ttl && |h.seats| == |Normalised(run)|
    && (forall s | s in run :: Key(event, s) in before && Holdable(before[Key(event, s)], now))
    && after.Keys == before.Keys
    && forall k | k in before :: after[k] == if Listed(k, event, run) then HeldRow(before[k], hold, user, now + ttl) else before[k]
  }

  lemma HeldRunFrom(before: Table, event: int, run: seq<int>, hold: HoldId, user: string, now: Time, ttl: int, h: Hold)
    requires h.hold == hold && h.event == event && h.expires == now + ttl && |h.seats| == |Normalised(run)|
    requires forall s | s in run :: Key(event, s) in before && Holdable(before[Key(event, s)], now)
    ensures HeldRun(before, Acquired(before, event, Normalised(run), hold, user, now, ttl), event, run, hold, user,
                    now, ttl, h)
  {
    NormalisedSound(run);
    forall k | k in before ensures AcquireHits(before, event, Normalised(run), now, k) <==> Listed(k, event, run) {
      if Listed(k, event, run) { assert k == Key(event, k.seat); }
    }
  }

  /** What was offered can be held, at any time, while the table stays as it was: the first
      run of a candidate list can be had unless somebody has a key of it. */
  lemma FoundRunsCanBeHad(t: Table, owners: map<Key, HoldId>, event: int, maxPrice: int, cs: seq<Candidate>,
                          quantity: nat, now: Time, run: seq<int>)
    requires IsCandidateList(t, event, maxPrice, cs) && run in Runs(cs, quantity)
    ensures Obtainable(t, owners, event, run, now) <==> forall seat | seat in run :: Key(event, seat) !in owners
  {
    RunsBeforeMembers(cs, quantity, |cs| + 1, run);
    forall seat | seat in run ensures Key(event, seat) in t && Holdable(t[Key(event, seat)], now) {
      var i :| 0 <= i < |run| && run[i] == seat;
    }
  }

  function Least(a: nat, b: nat): nat {
    if a < b then a else b
  }

  /** The keys of earlier attempts that the store would not take back, and no other new ones. */
  ghost predicate Leftovers(owners: map<Key, HoldId>, before: map<Key, HoldId>, event: int, holds: seq<HoldId>,
                            faults: seq<Faults>, n: nat)
    requires n <= |holds| && n <= |faults|
  {
    && (forall k | k in before :: k in owners && owners[k] == before[k])
    && (forall k | k in owners && k !in before ::
          k.event == event && exists i :: 0 <= i < n && k.seat in faults[i].unlockDown && owners[k] == holds[i])
  }

  lemma LeftoversGrow(owners: map<Key, HoldId>, owners': map<Key, HoldId>, before: map<Key, HoldId>, event: int,
                      holds: seq<HoldId>, faults: seq<Faults>, n: nat)
    requires n < |holds| && n < |faults| && Leftovers(owners, before, event, holds, faults, n)
    requires OnlyStrays(owners', owners, event, faults[n].unlockDown, holds[n])
    ensures Leftovers(owners', before, event, holds, faults, n + 1)
  {
    forall k | k in owners' && k !in before
      ensures k.event == event && exists i :: 0 <= i < n + 1 && k.seat in faults[i].unlockDown && owners'[k] == holds[i]
    {
      if k in owners {
        var i :| 0 <= i < n && k.seat in faults[i].unlockDown && owners[k] == holds[i];
        assert owners'[k] == holds[i];
      } else {
        assert k.seat in faults[n].unlockDown && owners'[k] == holds[n];
      }
    }
  }

  lemma LeftoversWiden(owners: map<Key, HoldId>, before: map<Key, HoldId>, event: int, holds: seq<HoldId>,
                       faults: seq<Faults>, m: nat, n: nat)
    requires m <= n <= |holds| && n <= |faults| && Leftovers(owners, before, event, holds, faults, m)
    ensures Leftovers(owners, before, event, holds, faults, n)
  {
    forall k | k in owners && k !in before
      ensures k.event == event && exists i :: 0 <= i < n && k.seat in faults[i].unlockDown && owners[k] == holds[i]
    {
      var i :| 0 <= i < m && k.seat in faults[i].unlockDown && owners[k] == holds[i];
    }
  }

  /** Keys and database answer in the first attempts. */
  ghost predicate Healthy(faults: seq<Faults>, n: nat) {
    n <= |faults| && forall i | 0 <= i < n :: faults[i] == Faults({}, {}, None)
  }

  ghost predicate AllDistinct(runs: seq<seq<int>>) {
    forall i | 0 <= i < |runs| :: NoDuplicates(runs[i])
  }

  /** Seats of one run are different seats. */
  lemma RunsAreDistinct(t: Table, event: int, maxPrice: int, cs: seq<Candidate>, quantity: nat)
    requires IsCandidateList(t, event, maxPrice, cs) && quantity > 0
    ensures AllDistinct(Runs(cs, quantity))
  {
    var runs := Runs(cs, quantity);
    forall n | 0 <= n < |runs| ensures NoDuplicates(runs[n]) {
      assert runs[n] in runs;
      RunsAreTogether(t, event, maxPrice, cs, quantity, runs[n]);
      var rowId, first :| Together(t, event, maxPrice, runs[n], rowId, first);
      var run := runs[n];
      forall i, j | 0 <= i < j < |run| ensures run[i] != run[j] {
        assert t[Key(event, run[i])].ordinal != t[Key(event, run[j])].ordinal;
      }
    }
  }

  lemma RunSizes(cs: seq<Candidate>, quantity: nat)
    ensures forall i | 0 <= i < |Runs(cs, quantity)| :: |Runs(cs, quantity)[i]| == quantity
  {
    forall i | 0 <= i < |Runs(cs, quantity)| ensures |Runs(cs, quantity)[i]| == quantity {
      assert Runs(cs, quantity)[i] in Runs(cs, quantity);
      RunsBeforeMembers(cs, quantity, |cs| + 1, Runs(cs, quantity)[i]);
    }
  }

  // ---- Which attempt decides ----

  /** What the attempts share: the table, the keys, who asks and when. */
  datatype Asking = Asking(t: Table, owners: map<Key, HoldId>, event: int, user: string, now: Time, ttl: int,
                           maxSeats: nat)

  /** What AcquireHold would answer to the first n attempts, one after the other lost. */
  function Answers(q: Asking, runs: seq<seq<int>>, holds: seq<HoldId>, faults: seq<Faults>, n: nat)
    : (answers: seq<Result<Hold, HoldError>>)
    requires n <= |runs| && n <= |holds| && n <= |faults|
    ensures |answers| == n
  {
    if n == 0 then [] else Answers(q, runs, holds, faults, n - 1) + [Answer(q, runs[n - 1], holds[n - 1], faults[n - 1])]
  }

  lemma {:induction false} AnswerAt(q: Asking, runs: seq<seq<int>>, holds: seq<HoldId>, faults: seq<Faults>, n: nat, i: nat)
    requires i < n <= |runs| && n <= |holds| && n <= |faults|
    ensures Answers(q, runs, holds, faults, n)[i] == Answer(q, runs[i], holds[i], faults[i])
  {
    if i < n - 1 { AnswerAt(q, runs, holds, faults, n - 1, i); }
  }

  function Answer(q: Asking, run: seq<int>, hold: HoldId, faults: Faults): Result<Hold, HoldError> {
    AcquireResult(q.t, q.owners, q.event, run, q.user, hold, q.now, q.ttl, q.maxSeats, faults)
  }

  predicate Lost(r: Result<Hold, HoldError>) {
    r.Err? && r.error.SeatTaken?
  }

  /** The first answer that is not a seat lost to a contender decides; without one there
      are no seats. */
  ghost predicate Decides(answers: seq<Result<Hold, HoldError>>, r: Result<Hold, HoldError>) {
    if AllLost(answers, |answers|) then r == Err(NoContiguousSeats)
    else exists k :: 0 <= k < |answers| && AllLost(answers, k) && !Lost(answers[k]) && r == answers[k]
  }

  lemma NoneDecides(answers: seq<Result<Hold, HoldError>>)
    requires AllLost(answers, |answers|)
    ensures Decides(answers, Err(NoContiguousSeats))
  {
  }

  lemma DecidedAt(answers: seq<Result<Hold, HoldError>>, k: nat)
    requires k < |answers| && AllLost(answers, k) && !Lost(answers[k])
    ensures Decides(answers, answers[k])
  {
  }

  ghost predicate AllLost(answers: seq<Result<Hold, HoldError>>, n: nat)
    requires n <= |answers|
  {
    forall j | 0 <= j < n :: Lost(answers[j])
  }

  /** With healthy stores an attempt is lost exactly when its run cannot be had. */
  lemma AttemptsObtain(q: Asking, runs: seq<seq<int>>, holds: seq<HoldId>, faults: seq<Faults>, quantity: nat, i: nat)
    requires |holds| >= MAX_ATTEMPTS && Healthy(faults, MAX_ATTEMPTS) && AllDistinct(runs)
    requires 0 < quantity <= q.maxSeats && i < Least(MAX_ATTEMPTS, |runs|) && |runs[i]| == quantity
    ensures var a := Answers(q, runs, holds, faults, Least(MAX_ATTEMPTS, |runs|))[i];
            if Obtainable(q.t, q.owners, q.event, runs[i], q.now) then a.Ok? else Lost(a)
  {
    AnswerAt(q, runs, holds, faults, Least(MAX_ATTEMPTS, |runs|), i);
    GrantedIff(q.t, q.owners, q.event, runs[i], q.user, holds[i], q.now, q.ttl, q.maxSeats, {});
  }

  /** So the search succeeds exactly when one of the runs it tries can be had. */
  lemma FoundIff(q: Asking, runs: seq<seq<int>>, holds: seq<HoldId>, faults: seq<Faults>, quantity: nat,
                 r: Result<Hold, HoldError>)
    requires |holds| >= MAX_ATTEMPTS && Healthy(faults, MAX_ATTEMPTS) && AllDistinct(runs)
    requires 0 < quantity <= q.maxSeats && forall i | 0 <= i < |runs| :: |runs[i]| == quantity
    requires Decides(Answers(q, runs, holds, faults, Least(MAX_ATTEMPTS, |runs|)), r)
    ensures r.Ok? <==> exists i :: 0 <= i < Least(MAX_ATTEMPTS, |runs|) && Obtainable(q.t, q.owners, q.event, runs[i], q.now)
  {
    var answers := Answers(q, runs, holds, faults, Least(MAX_ATTEMPTS, |runs|));
    forall i | 0 <= i < |answers|
      ensures if Obtainable(q.t, q.owners, q.event, runs[i], q.now) then answers[i].Ok? else Lost(answers[i])
    {
      AttemptsObtain(q, runs, holds, faults, quantity, i);
    }
  }

  /** The store answers every release. */
  ghost predicate KeysGoBack(faults: seq<Faults>) {
    forall i | 0 <= i < |faults| && i < MAX_ATTEMPTS :: faults[i].unlockDown == {}
  }

  function AskingOf(t: Table, owners: map<Key, HoldId>, event: int, user: string, now: Time, inv: Service): Asking {
    Asking(t, owners, event, user, now, inv.holdTtl, inv.maxSeatsPerHold)
  }

  /** One attempt: all of the run or none of it. */
  method Attempt(inv: Service, event: int, run: seq<int>, quantity: nat, user: string, hold: HoldId, now: Time,
                 faults: Faults)
    returns (h: Result<Hold, HoldError>)
    requires |run| == quantity && 0 < quantity <= inv.maxSeatsPerHold
    modifies inv`seats, inv`outbox, inv.lock
    ensures h.Err? ==> inv.seats == old(inv.seats) && inv.outbox == old(inv.outbox)
                       && OnlyStrays(inv.lock.owners, old(inv.lock.owners), event, faults.unlockDown, hold)
    ensures h.Ok? ==> HeldRun(old(inv.seats), inv.seats, event, run, hold, user, now, inv.holdTtl, h.value)
    ensures h == Answer(AskingOf(old(inv.seats), old(inv.lock.owners), event, user, now, inv), run, hold, faults)
    ensures h.Err? && faults.unlockDown == {} ==> inv.lock.owners == old(inv.lock.owners)
  {
    ghost var t := inv.seats;
    h := inv.AcquireHold(event, run, user, hold, now, faults);
    if h.Err? && faults.unlockDown == {} { NoStrays(inv.lock.owners, old(inv.lock.owners), event, hold); }
    if h.Ok? { HeldRunFrom(t, event, run, hold, user, now, inv.holdTtl, h.value); }
  }

  /** The i-th attempt, with what it adds to the keys that stay behind. */
  method TryRun(inv: Service, event: int, quantity: nat, runs: seq<seq<int>>, i: nat, user: string,
                holds: seq<HoldId>, now: Time, faults: seq<Faults>, ghost before: map<Key, HoldId>, ghost n: nat)
    returns (r: Result<Hold, HoldError>)
    requires i < n <= |runs| && n <= |holds| && n <= |faults|
    requires |runs[i]| == quantity && 0 < quantity <= inv.maxSeatsPerHold
    requires Leftovers(inv.lock.owners, before, event, holds, faults, i)
    modifies inv`seats, inv`outbox, inv.lock
    ensures r.Err? ==> inv.seats == old(inv.seats) && inv.outbox == old(inv.outbox)
    ensures r.Err? ==> Leftovers(inv.lock.owners, before, event, holds, faults, i + 1)
    ensures r.Ok? ==> HeldRun(old(inv.seats), inv.seats, event, runs[i], holds[i], user, now, inv.holdTtl, r.value)
    ensures r == Answers(AskingOf(old(inv.seats), old(inv.lock.owners), event, user, now, inv), runs, holds, faults, n)[i]
    ensures r.Err? && faults[i].unlockDown == {} ==> inv.lock.owners == old(inv.lock.owners)
  {
    ghost var owners := inv.lock.owners;
    AnswerAt(AskingOf(inv.seats, owners, event, user, now, inv), runs, holds, faults, n, i);
    r := Attempt(inv, event, runs[i], quantity, user, holds[i], now, faults[i]);
    if r.Err? { LeftoversGrow(owners, inv.lock.owners, before, event, holds, faults, i); }
  }

  /** The attempts, until one is not lost to a contender. */
  method TryRuns(inv: Service, event: int, quantity: nat, runs: seq<seq<int>>, user: string, holds: seq<HoldId>,
                 now: Time, faults: seq<Faults>)
    returns (r: Result<Hold, HoldError>)
    requires |holds| >= MAX_ATTEMPTS && |faults| >= MAX_ATTEMPTS
    requires 0 < quantity <= inv.maxSeatsPerHold && forall i | 0 <= i < |runs| :: |runs[i]| == quantity
    modifies inv`seats, inv`outbox, inv.lock
    ensures r.Err? ==> inv.seats == old(inv.seats) && inv.outbox == old(inv.outbox)
    ensures r.Err? ==> Leftovers(inv.lock.owners, old(inv.lock.owners), event, holds, faults, MAX_ATTEMPTS)
    ensures r.Ok? ==>
              exists i :: 0 <= i < Least(MAX_ATTEMPTS, |runs|)
                          && HeldRun(old(inv.seats), inv.seats, event, runs[i], holds[i], user, now, inv.holdTtl, r.value)
    ensures KeysGoBack(faults) ==>
              Decides(Answers(AskingOf(old(inv.seats), old(inv.lock.owners), event, user, now, inv), runs, holds, faults,
                              Least(MAX_ATTEMPTS, |runs|)), r)
  {
    var attempts := Least(MAX_ATTEMPTS, |runs|);
    ghost var goBack, before := KeysGoBack(faults), inv.lock.owners;
    ghost var answers := Answers(AskingOf(inv.seats, before, event, user, now, inv), runs, holds, faults, attempts);
    for i := 0 to attempts
      invariant inv.seats == old(inv.seats) && inv.outbox == old(inv.outbox)
      invariant Leftovers(inv.lock.owners, before, event, holds, faults, i)
      invariant goBack ==> inv.lock.owners == before && AllLost(answers, i)
    {
      r := TryRun(inv, event, quantity, runs, i, user, holds, now, faults, before, attempts);
      if goBack && !Lost(r) { DecidedAt(answers, i); }
      if r.Ok? { return; }
      if !r.error.SeatTaken? {
        LeftoversWiden(inv.lock.owners, before, event, holds, faults, i + 1, MAX_ATTEMPTS);
        return;
      }
    }
    LeftoversWiden(inv.lock.owners, before, event, holds, faults, attempts, MAX_ATTEMPTS);
    if goBack { NoneDecides(answers); }
    r := Err(NoContiguousSeats);
  }

  /** Up to three attempts, moving to the next run only when the seats were lost to
      a contender; cs is what the candidate query answered, holds the fresh ids. While
      the stores answer, it succeeds exactly when one of the first three runs can be had.
      While the keys at least go back, the first attempt not lost to a contender decides. */
  method Find(inv: Service, event: int, quantity: int, cs: seq<Candidate>, user: string,
              holds: seq<HoldId>, now: Time, faults: seq<Faults>)
    returns (r: Result<Hold, HoldError>)
    requires |holds| >= MAX_ATTEMPTS && |faults| >= MAX_ATTEMPTS
    modifies inv`seats, inv`outbox, inv.lock
    ensures r.Err? ==> inv.seats == old(inv.seats) && inv.outbox == old(inv.outbox)
    ensures r.Err? ==> Leftovers(inv.lock.owners, old(inv.lock.owners), event, holds, faults, MAX_ATTEMPTS)
    ensures quantity > inv.maxSeatsPerHold && quantity > 0 ==> r == Err(TooManySeats)
    ensures 0 < quantity <= inv.maxSeatsPerHold && Runs(cs, quantity) == [] ==> r == Err(NoContiguousSeats)
    ensures r.Ok? ==>
              0 < quantity <= inv.maxSeatsPerHold
              && exists i :: 0 <= i < Least(MAX_ATTEMPTS, |Runs(cs, quantity)|)
                             && HeldRun(old(inv.seats), inv.seats, event, Runs(cs, quantity)[i], holds[i], user, now,
                                        inv.holdTtl, r.value)
    ensures 0 < quantity <= inv.maxSeatsPerHold && Healthy(faults, MAX_ATTEMPTS) && AllDistinct(Runs(cs, quantity)) ==>
              (r.Ok? <==> exists i :: 0 <= i < Least(MAX_ATTEMPTS, |Runs(cs, quantity)|)
                                      && Obtainable(old(inv.seats), old(inv.lock.owners), event,
                                                    Runs(cs, quantity)[i], now))
    ensures 0 < quantity <= inv.maxSeatsPerHold && KeysGoBack(faults) ==>
              Decides(Answers(AskingOf(old(inv.seats), old(inv.lock.owners), event, user, now, inv), Runs(cs, quantity),
                              holds, faults, Least(MAX_ATTEMPTS, |Runs(cs, quantity)|)), r)
  {
    if quantity <= 0 { return Err(NoSeats); }
    if quantity > inv.maxSeatsPerHold { return Err(TooManySeats); }
    var runs := FindContiguousRuns(cs, quantity);
    if |runs| == 0 { return Err(NoContiguousSeats); }
    RunSizes(cs, quantity);
    ghost var q := AskingOf(inv.seats, inv.lock.owners, event, user, now, inv);
    r := TryRuns(inv, event, quantity, runs, user, holds, now, faults);
    if Healthy(faults, MAX_ATTEMPTS) && AllDistinct(runs) {
      assert KeysGoBack(faults);
      FoundIff(q, runs, holds, faults, quantity, r);
    }
  }
}
