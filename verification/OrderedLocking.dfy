/** Transfers between accounts by any number of goroutines, each taking its two locks in
    the order of the accounts' ids. */
module OrderedLocking {
  import opened Wrappers

  /** Accounts are numbered; ids are theirs to be ordered by. */
  datatype Transfer = Transfer(from: nat, to: nat, amount: int)

  datatype Bank = Bank(ids: seq<int>, transfers: seq<Transfer>)

  ghost predicate WellFormed(k: Bank) {
    && (forall a, b | 0 <= a < b < |k.ids| :: k.ids[a] != k.ids[b])
    && forall g | 0 <= g < |k.transfers| :: Known(k, k.transfers[g])
  }

  ghost predicate NobodyPaysHimself(k: Bank) {
    forall g | 0 <= g < |k.transfers| :: k.transfers[g].from != k.transfers[g].to
  }

  predicate Known(k: Bank, t: Transfer) {
    t.from < |k.ids| && t.to < |k.ids|
  }

  function First(k: Bank, t: Transfer): nat
    requires Known(k, t)
  {
    if k.ids[t.from] > k.ids[t.to] then t.to else t.from
  }

  function Second(k: Bank, t: Transfer): nat
    requires Known(k, t)
  {
    if k.ids[t.from] > k.ids[t.to] then t.from else t.to
  }

  /** What a goroutine does next. */
  const LOCK_FIRST: nat := 0
  const LOCK_SECOND: nat := 1
  const READ_FROM: nat := 2
  const WRITE_FROM: nat := 3
  const READ_TO: nat := 4
  const WRITE_TO: nat := 5
  const UNLOCK_SECOND: nat := 6
  const UNLOCK_FIRST: nat := 7
  const DONE: nat := 8

  /** owner: who holds an account's mutex. register: the balance a goroutine has read. */
  datatype State = State(balances: seq<int>, owner: seq<Option<nat>>, pcs: seq<nat>, register: seq<int>)

  ghost predicate Fits(k: Bank, s: State) {
    && |s.balances| == |k.ids| && |s.owner| == |k.ids|
    && |s.pcs| == |k.transfers| && |s.register| == |k.transfers|
    && forall g | 0 <= g < |s.pcs| :: s.pcs[g] <= DONE
  }

  function Begin(k: Bank, balances: seq<int>): State {
    State(balances, seq(|k.ids|, _ => None), seq(|k.transfers|, _ => LOCK_FIRST), seq(|k.transfers|, _ => 0))
  }

  ghost predicate Enabled(k: Bank, s: State, g: nat)
    requires WellFormed(k) && Fits(k, s)
  {
    g < |s.pcs| && s.pcs[g] != DONE
    && (s.pcs[g] == LOCK_FIRST ==> s.owner[First(k, k.transfers[g])] == None)
    && (s.pcs[g] == LOCK_SECOND ==> s.owner[Second(k, k.transfers[g])] == None)
  }

  ghost function Step(k: Bank, s: State, g: nat): State
    requires WellFormed(k) && Fits(k, s) && Enabled(k, s, g)
  {
    var t := k.transfers[g];
    var pc := s.pcs[g];
    var s1 := s.(pcs := s.pcs[g := pc + 1]);
    if pc == LOCK_FIRST then s1.(owner := s.owner[First(k, t) := Some(g)])
    else if pc == LOCK_SECOND then s1.(owner := s.owner[Second(k, t) := Some(g)])
    else if pc == READ_FROM then s1.(register := s.register[g := s.balances[t.from]])
    else if pc == WRITE_FROM then s1.(balances := s.balances[t.from := s.register[g] - t.amount])
    else if pc == READ_TO then s1.(register := s.register[g := s.balances[t.to]])
    else if pc == WRITE_TO then s1.(balances := s.balances[t.to := s.register[g] + t.amount])
    else if pc == UNLOCK_SECOND then s1.(owner := s.owner[Second(k, t) := None])
    else s1.(owner := s.owner[First(k, t) := None])
  }

  // ---- Who holds what ----

  /** Whether a goroutine at this point holds an account. */
  ghost predicate Holding(k: Bank, s: State, g: int, a: int)
    requires WellFormed(k) && Fits(k, s) && 0 <= g < |s.pcs|
  {
    (a == First(k, k.transfers[g]) && LOCK_FIRST < s.pcs[g] <= UNLOCK_FIRST)
    || (a == Second(k, k.transfers[g]) && LOCK_SECOND < s.pcs[g] <= UNLOCK_SECOND)
  }

  ghost predicate Locked(k: Bank, s: State)
    requires WellFormed(k) && Fits(k, s)
  {
    && (forall a | 0 <= a < |s.owner| && s.owner[a].Some? :: s.owner[a].value < |s.pcs|)
    && (forall g | 0 <= g < |s.pcs| && k.transfers[g].from == k.transfers[g].to :: s.pcs[g] <= LOCK_SECOND)
    && forall g, a | 0 <= g < |s.pcs| && 0 <= a < |s.owner| :: Holding(k, s, g, a) <==> s.owner[a] == Some(g)
  }

  lemma StepLocked(k: Bank, s: State, g: nat)
    requires WellFormed(k) && Fits(k, s) && Locked(k, s) && Enabled(k, s, g)
    ensures Fits(k, Step(k, s, g)) && Locked(k, Step(k, s, g))
  {
    var s', t := Step(k, s, g), k.transfers[g];
    assert s.pcs[g] == LOCK_SECOND ==> Holding(k, s, g, First(k, t));
    forall h, a | 0 <= h < |s.pcs| && 0 <= a < |s.owner| ensures Holding(k, s', h, a) <==> s'.owner[a] == Some(h) {
      assert Holding(k, s, h, a) <==> s.owner[a] == Some(h);
      assert Holding(k, s, g, a) <==> s.owner[a] == Some(g);
    }
  }

  // ---- No deadlock ----

  /** Chasing the holder of a wanted lock climbs the ids, so it ends at somebody who can
      step. */
  lemma {:induction false} ChaseHolder(k: Bank, s: State, g: nat, top: int) returns (h: nat)
    requires WellFormed(k) && Fits(k, s) && Locked(k, s)
    requires NobodyPaysHimself(k) && g < |s.pcs| && s.pcs[g] == LOCK_SECOND
    requires forall a | 0 <= a < |k.ids| :: k.ids[a] <= top
    ensures Enabled(k, s, h)
    decreases top - k.ids[Second(k, k.transfers[g])]
  {
    var wanted := Second(k, k.transfers[g]);
    if s.owner[wanted] == None {
      h := g;
    } else {
      h := s.owner[wanted].value;
      assert Holding(k, s, h, wanted);
      if s.pcs[h] == LOCK_SECOND {
        assert wanted == First(k, k.transfers[h]);
        h := ChaseHolder(k, s, h, top);
      }
    }
  }

  lemma {:induction false} HighestId(ids: seq<int>) returns (top: int)
    ensures forall a | 0 <= a < |ids| :: ids[a] <= top
  {
    top := 0;
    for i := 0 to |ids|
      invariant forall a | 0 <= a < i :: ids[a] <= top
    {
      if ids[i] > top { top := ids[i]; }
    }
  }

  /** Whenever a transfer is unfinished, some goroutine can step. */
  lemma NoDeadlock(k: Bank, s: State, g: nat) returns (h: nat)
    requires WellFormed(k) && NobodyPaysHimself(k) && Fits(k, s) && Locked(k, s) && g < |s.pcs| && s.pcs[g] != DONE
    ensures Enabled(k, s, h)
  {
    var top := HighestId(k.ids);
    h := g;
    if s.pcs[g] == LOCK_FIRST && s.owner[First(k, k.transfers[g])].Some? {
      h := s.owner[First(k, k.transfers[g])].value;
      assert Holding(k, s, h, First(k, k.transfers[g]));
    }
    if s.pcs[h] == LOCK_SECOND { h := ChaseHolder(k, s, h, top); }
  }

  // ---- Money ----

  /** What a goroutine that has come this far has done to an account. */
  function Moved(t: Transfer, pc: nat, a: int): int {
    (if pc > WRITE_FROM && t.from == a then -t.amount else 0) + (if pc > WRITE_TO && t.to == a then t.amount else 0)
  }

  function AllMoved(transfers: seq<Transfer>, pcs: seq<nat>, a: int): int
    requires |pcs| == |transfers|
  {
    if transfers == [] then 0
    else AllMoved(transfers[..|transfers| - 1], pcs[..|pcs| - 1], a) + Moved(transfers[|transfers| - 1], pcs[|pcs| - 1], a)
  }

  lemma {:induction false} OneMoved(transfers: seq<Transfer>, pcs: seq<nat>, g: nat, pc: nat, a: int)
    requires |pcs| == |transfers| && g < |pcs|
    ensures AllMoved(transfers, pcs[g := pc], a) == AllMoved(transfers, pcs, a) - Moved(transfers[g], pcs[g], a) + Moved(transfers[g], pc, a)
  {
    var last := |pcs| - 1;
    if g < last {
      OneMoved(transfers[..last], pcs[..last], g, pc, a);
      assert pcs[g := pc][..last] == pcs[..last][g := pc];
    } else {
      assert pcs[g := pc][..last] == pcs[..last];
    }
  }

  /** Every account shows what it started with and what has been written so far, and
      what a goroutine has read and not yet written back is still what is there. */
  ghost predicate Exact(k: Bank, start: seq<int>, s: State)
    requires WellFormed(k) && Fits(k, s) && |start| == |k.ids|
  {
    && (forall a | 0 <= a < |s.balances| :: s.balances[a] == start[a] + AllMoved(k.transfers, s.pcs, a))
    && forall g | 0 <= g < |s.pcs| ::
         && (s.pcs[g] == WRITE_FROM ==> s.register[g] == s.balances[k.transfers[g].from])
         && (s.pcs[g] == WRITE_TO ==> s.register[g] == s.balances[k.transfers[g].to])
  }

  lemma StepExact(k: Bank, start: seq<int>, s: State, g: nat)
    requires WellFormed(k) && Fits(k, s) && Locked(k, s) && Enabled(k, s, g) && |start| == |k.ids| && Exact(k, start, s)
    ensures Exact(k, start, Step(k, s, g))
  {
    var s', t := Step(k, s, g), k.transfers[g];
    forall a | 0 <= a < |s.balances| ensures s'.balances[a] == start[a] + AllMoved(k.transfers, s'.pcs, a) {
      OneMoved(k.transfers, s.pcs, g, s.pcs[g] + 1, a);
    }
    forall h | 0 <= h < |s.pcs|
      ensures s'.pcs[h] == WRITE_FROM ==> s'.register[h] == s'.balances[k.transfers[h].from]
      ensures s'.pcs[h] == WRITE_TO ==> s'.register[h] == s'.balances[k.transfers[h].to]
    {
      if h != g && (s.pcs[g] == WRITE_FROM || s.pcs[g] == WRITE_TO) && (s.pcs[h] == WRITE_FROM || s.pcs[h] == WRITE_TO) {
        NotBothHold(k, s, g, h);
      }
    }
  }

  /** Two goroutines that hold both their locks share no account. */
  lemma NotBothHold(k: Bank, s: State, g: nat, h: nat)
    requires WellFormed(k) && Fits(k, s) && Locked(k, s) && g < |s.pcs| && h < |s.pcs| && g != h
    requires LOCK_SECOND < s.pcs[g] <= UNLOCK_SECOND && LOCK_SECOND < s.pcs[h] <= UNLOCK_SECOND
    ensures k.transfers[g].from != k.transfers[h].from && k.transfers[g].from != k.transfers[h].to
    ensures k.transfers[g].to != k.transfers[h].from && k.transfers[g].to != k.transfers[h].to
  {
    assert Holding(k, s, g, k.transfers[g].from) && Holding(k, s, g, k.transfers[g].to);
    assert Holding(k, s, h, k.transfers[h].from) && Holding(k, s, h, k.transfers[h].to);
  }

  // ---- Whole runs ----

  ghost predicate Possible(k: Bank, s: State, run: seq<nat>)
    requires WellFormed(k) && Fits(k, s)
    decreases run
  {
    run != [] ==> Enabled(k, s, run[0]) && Fits(k, Step(k, s, run[0])) && Possible(k, Step(k, s, run[0]), run[1..])
  }

  ghost function Run(k: Bank, s: State, run: seq<nat>): State
    requires WellFormed(k) && Fits(k, s) && Possible(k, s, run)
    decreases run
  {
    if run == [] then s else Run(k, Step(k, s, run[0]), run[1..])
  }

  function Sum(s: seq<int>): int {
    if s == [] then 0 else Sum(s[..|s| - 1]) + s[|s| - 1]
  }

  function Progress(pcs: seq<nat>): nat {
    if pcs == [] then 0 else Progress(pcs[..|pcs| - 1]) + pcs[|pcs| - 1]
  }

  lemma {:induction false} ProgressByOne(pcs: seq<nat>, g: nat)
    requires g < |pcs|
    ensures Progress(pcs[g := pcs[g] + 1]) == Progress(pcs) + 1
  {
    var last := |pcs| - 1;
    if g < last {
      ProgressByOne(pcs[..last], g);
      assert pcs[g := pcs[g] + 1][..last] == pcs[..last][g := pcs[g] + 1];
    } else {
      assert pcs[g := pcs[g] + 1][..last] == pcs[..last];
    }
  }

  lemma {:induction false} ProgressBounded(pcs: seq<nat>)
    requires forall g | 0 <= g < |pcs| :: pcs[g] <= DONE
    ensures Progress(pcs) <= DONE * |pcs|
    ensures Progress(pcs) == DONE * |pcs| <==> forall g | 0 <= g < |pcs| :: pcs[g] == DONE
  {
    if pcs != [] { ProgressBounded(pcs[..|pcs| - 1]); }
  }

  lemma {:induction false} RunInvariant(k: Bank, start: seq<int>, s: State, run: seq<nat>)
    requires WellFormed(k) && Fits(k, s) && Locked(k, s) && |start| == |k.ids| && Exact(k, start, s)
        && Possible(k, s, run)
    ensures var s' := Run(k, s, run);
            Fits(k, s') && Locked(k, s') && Exact(k, start, s') && Progress(s'.pcs) == Progress(s.pcs) + |run|
    decreases run
  {
    if run != [] {
      StepLocked(k, s, run[0]);
      StepExact(k, start, s, run[0]);
      ProgressByOne(s.pcs, run[0]);
      RunInvariant(k, start, Step(k, s, run[0]), run[1..]);
    }
  }

  lemma {:induction false} BeginInvariant(k: Bank, start: seq<int>)
    requires WellFormed(k) && |start| == |k.ids|
    ensures var s := Begin(k, start); Fits(k, s) && Locked(k, s) && Exact(k, start, s) && Progress(s.pcs) == 0
  {
    var s := Begin(k, start);
    forall a | 0 <= a < |start| ensures AllMoved(k.transfers, s.pcs, a) == 0 { NothingMoved(k.transfers, s.pcs, a); }
    NoProgress(s.pcs);
  }

  lemma {:induction false} NothingMoved(transfers: seq<Transfer>, pcs: seq<nat>, a: int)
    requires |pcs| == |transfers| && forall g | 0 <= g < |pcs| :: pcs[g] == LOCK_FIRST
    ensures AllMoved(transfers, pcs, a) == 0
  {
    if pcs != [] { NothingMoved(transfers[..|pcs| - 1], pcs[..|pcs| - 1], a); }
  }

  lemma {:induction false} NoProgress(pcs: seq<nat>)
    requires forall g | 0 <= g < |pcs| :: pcs[g] == LOCK_FIRST
    ensures Progress(pcs) == 0
  {
    if pcs != [] { NoProgress(pcs[..|pcs| - 1]); }
  }

  /** Any number of goroutines, any interleaving: no run is longer than eight steps a
      transfer. */
  lemma RunsAreBounded(k: Bank, start: seq<int>, run: seq<nat>)
    requires WellFormed(k) && |start| == |k.ids| && Fits(k, Begin(k, start)) && Possible(k, Begin(k, start), run)
    ensures |run| <= DONE * |k.transfers|
    ensures var s := Run(k, Begin(k, start), run);
            Fits(k, s) && Locked(k, s) && Exact(k, start, s) && (|run| == DONE * |k.transfers| <==> s.pcs == AllDone(k))
  {
    BeginInvariant(k, start);
    RunInvariant(k, start, Begin(k, start), run);
    var s := Run(k, Begin(k, start), run);
    ProgressBounded(s.pcs);
  }

  /** When nobody pays himself, a run that cannot be continued has taken all its steps,
      with every transfer done and every balance exactly what its transfers make it. */
  lemma EveryRunFinishes(k: Bank, start: seq<int>, run: seq<nat>)
    requires WellFormed(k) && NobodyPaysHimself(k)
    requires |start| == |k.ids| && Fits(k, Begin(k, start)) && Possible(k, Begin(k, start), run)
    ensures var s := Run(k, Begin(k, start), run);
            Fits(k, s)
            && ((forall g: nat :: !Enabled(k, s, g)) <==> |run| == DONE * |k.transfers|)
            && (|run| == DONE * |k.transfers| ==>
                  forall a | 0 <= a < |start| :: s.balances[a] == start[a] + AllMoved(k.transfers, AllDone(k), a))
  {
    RunsAreBounded(k, start, run);
    var s := Run(k, Begin(k, start), run);
    if g: nat :| g < |s.pcs| && s.pcs[g] != DONE {
      var h := NoDeadlock(k, s, g);
    } else {
      assert s.pcs == AllDone(k);
    }
  }

  /** And a goroutine that pays its own account never finishes, in any run: it waits for
      the lock it holds. */
  lemma SelfPaymentNeverEnds(k: Bank, start: seq<int>, run: seq<nat>, g: nat)
    requires WellFormed(k) && g < |k.transfers| && k.transfers[g].from == k.transfers[g].to
    requires |start| == |k.ids| && Fits(k, Begin(k, start)) && Possible(k, Begin(k, start), run)
    ensures var s := Run(k, Begin(k, start), run);
            Fits(k, s) && s.pcs[g] <= LOCK_SECOND && (s.pcs[g] == LOCK_SECOND ==> !Enabled(k, s, g))
  {
    RunsAreBounded(k, start, run);
    var s := Run(k, Begin(k, start), run);
    assert s.pcs[g] == LOCK_SECOND ==> Holding(k, s, g, First(k, k.transfers[g]));
  }

  function AllDone(k: Bank): seq<nat> {
    seq(|k.transfers|, _ => DONE)
  }

  // ---- The total ----

  /** What is debited and not yet credited. */
  function InFlight(transfers: seq<Transfer>, pcs: seq<nat>): int
    requires |pcs| == |transfers|
  {
    if transfers == [] then 0
    else InFlight(transfers[..|transfers| - 1], pcs[..|pcs| - 1])
         + if WRITE_FROM < pcs[|pcs| - 1] <= WRITE_TO then transfers[|transfers| - 1].amount else 0
  }

  lemma {:induction false} SumOfMoves(k: Bank, transfers: seq<Transfer>, pcs: seq<nat>, start: seq<int>,
                                      balances: seq<int>)
    requires |pcs| == |transfers| && |balances| == |start| && |start| == |k.ids|
    requires forall g | 0 <= g < |transfers| :: Known(k, transfers[g])
    requires forall a | 0 <= a < |start| :: balances[a] == start[a] + AllMoved(transfers, pcs, a)
    ensures Sum(balances) == Sum(start) - InFlight(transfers, pcs)
    decreases transfers
  {
    if transfers == [] {
      assert balances == start;
    } else {
      var last := |transfers| - 1;
      var before := seq(|start|, a requires 0 <= a < |start| => start[a] + AllMoved(transfers[..last], pcs[..last], a));
      SumOfMoves(k, transfers[..last], pcs[..last], start, before);
      forall a | 0 <= a < |start| ensures balances[a] == before[a] + Moved(transfers[last], pcs[last], a) {}
      SumOfMove(transfers[last], pcs[last], before, balances);
    }
  }

  lemma {:induction false} SumOfMove(t: Transfer, pc: nat, before: seq<int>, after: seq<int>)
    requires |after| == |before| && t.from < |before| && t.to < |before|
    requires forall a | 0 <= a < |before| :: after[a] == before[a] + Moved(t, pc, a)
    ensures Sum(after) == Sum(before) - if WRITE_FROM < pc <= WRITE_TO then t.amount else 0
  {
    SumOfTwo(before, after, t.from, if pc > WRITE_FROM then -t.amount else 0, t.to,
             if pc > WRITE_TO then t.amount else 0);
  }

  lemma {:induction false} SumOfTwo(before: seq<int>, after: seq<int>, i: nat, di: int, j: nat, dj: int)
    requires |after| == |before| && i < |before| && j < |before|
    requires forall a | 0 <= a < |before| :: after[a] == before[a] + (if a == i then di else 0) + (if a == j then dj else 0)
    ensures Sum(after) == Sum(before) + di + dj
  {
    var mid := before[i := before[i] + di];
    SumByOne(before, i, di);
    SumByOne(mid, j, dj);
    assert after == mid[j := mid[j] + dj];
  }

  lemma {:induction false} SumByOne(s: seq<int>, i: nat, d: int)
    requires i < |s|
    ensures Sum(s[i := s[i] + d]) == Sum(s) + d
  {
    var last := |s| - 1;
    if i < last {
      SumByOne(s[..last], i, d);
      assert s[i := s[i] + d][..last] == s[..last][i := s[i] + d];
    } else {
      assert s[i := s[i] + d][..last] == s[..last];
    }
  }

  /** The total is short by what is in flight, and by nothing at the end. */
  lemma TotalConserved(k: Bank, start: seq<int>, run: seq<nat>)
    requires WellFormed(k) && |start| == |k.ids| && Fits(k, Begin(k, start)) && Possible(k, Begin(k, start), run)
    ensures var s := Run(k, Begin(k, start), run);
            |s.pcs| == |k.transfers| && Sum(s.balances) == Sum(start) - InFlight(k.transfers, s.pcs)
            && (|run| == DONE * |k.transfers| ==> Sum(s.balances) == Sum(start))
  {
    BeginInvariant(k, start);
    RunInvariant(k, start, Begin(k, start), run);
    var s := Run(k, Begin(k, start), run);
    SumOfMoves(k, k.transfers, s.pcs, start, s.balances);
    ProgressBounded(s.pcs);
    if |run| == DONE * |k.transfers| { NothingInFlight(k.transfers, s.pcs); }
  }

  lemma {:induction false} NothingInFlight(transfers: seq<Transfer>, pcs: seq<nat>)
    requires |pcs| == |transfers| && forall g | 0 <= g < |pcs| :: pcs[g] == DONE
    ensures InFlight(transfers, pcs) == 0
  {
    if pcs != [] { NothingInFlight(transfers[..|pcs| - 1], pcs[..|pcs| - 1]); }
  }
}
