/** Stretches of one order's statements, as paths of states and as moves of the world. */
module SagaPaths {
  import opened EventSeats
  import BestAvailable
  import opened Saga
  import opened SagaRuns

  /** What a step leads to: the table and the order's state. */
  datatype Stop = Stop(table: Table, state: OrderState)

  /** One statement of the order leads from a to b. */
  predicate Hop(now: Time, o: OrderId, lim: Limits, c: Choice, a: Stop, b: Stop) {
    a.state.pc != Idle && PcFits(a.state.pc) && TableAfter(a.table, now, o, a.state.pc, lim, c) == b.table
    && StateAfter(a.table, b.table, now, a.state, lim, c) == b.state
  }

  predicate Path(now: Time, o: OrderId, lim: Limits, c: Choice, stops: seq<Stop>) {
    forall i | 0 < i < |stops| :: Hop(now, o, lim, c, stops[i - 1], stops[i])
  }

  lemma PathJoins(now: Time, o: OrderId, lim: Limits, c: Choice, xs: seq<Stop>, ys: seq<Stop>)
    requires Path(now, o, lim, c, xs) && Path(now, o, lim, c, ys) && xs != [] && ys != []
    requires Hop(now, o, lim, c, xs[|xs| - 1], ys[0])
    ensures Path(now, o, lim, c, xs + ys)
  {
    var all := xs + ys;
    forall i | 0 < i < |all| ensures Hop(now, o, lim, c, all[i - 1], all[i]) {
      if i > |xs| { assert Hop(now, o, lim, c, ys[i - |xs| - 1], ys[i - |xs|]); }
    }
  }

  // ---- Runs, front to back ----

  ghost predicate Leads(w: World, lim: Limits, crashes: Crashes, moves: seq<Move>, w': World) {
    Possible(w, lim, moves, crashes) && Run(w, lim, moves, crashes) == w'
  }

  lemma LeadsCons(w: World, lim: Limits, crashes: Crashes, m: Move, moves: seq<Move>, w': World)
    requires Enabled(w, m) && Tolerated(w, m, crashes) && Leads(Next(w, lim, m), lim, crashes, moves, w')
    ensures Leads(w, lim, crashes, [m] + moves, w')
  {
    assert ([m] + moves)[1..] == moves;
  }

  /** The world with the order at a stop of its path. */
  function At(w: World, o: OrderId, stop: Stop): World {
    w.(table := stop.table, orders := w.orders[o := stop.state])
  }

  /** The choice names the candidates a search would find at this stop, and a fresh hold. */
  ghost predicate Finds(c: Choice, stop: Stop) {
    && (stop.state.pc.SearchSeats? ==>
          var ord := stop.state.pc.ord;
          ord.seats != [] && BestAvailable.IsCandidateList(stop.table, ord.event, MaxPrice(ord), c.candidates))
    && (stop.state.pc.AcquireRun? ==> c.freshHold != stop.state.placed)
  }

  lemma HopIsMove(w: World, lim: Limits, crashes: Crashes, o: OrderId, c: Choice, a: Stop, b: Stop)
    requires o in w.orders && w == At(w, o, a) && Hop(w.now, o, lim, c, a, b) && Finds(c, a)
    ensures Enabled(w, Statement(o, c)) && Tolerated(w, Statement(o, c), crashes)
    ensures Next(w, lim, Statement(o, c)) == At(w, o, b)
  {
    assert w.orders[o] == a.state;
    assert w.orders[o := a.state][o := b.state] == w.orders[o := b.state];
  }

  /** A path that moves of the world can follow. */
  ghost predicate Walk(now: Time, o: OrderId, lim: Limits, c: Choice, stops: seq<Stop>) {
    stops != [] && Path(now, o, lim, c, stops) && forall i | 0 <= i < |stops| :: Finds(c, stops[i])
  }

  lemma WalkJoins(now: Time, o: OrderId, lim: Limits, c: Choice, xs: seq<Stop>, ys: seq<Stop>)
    requires Walk(now, o, lim, c, xs) && Walk(now, o, lim, c, ys) && Hop(now, o, lim, c, xs[|xs| - 1], ys[0])
    ensures Walk(now, o, lim, c, xs + ys)
  {
    PathJoins(now, o, lim, c, xs, ys);
  }

  lemma WalkCons(now: Time, o: OrderId, lim: Limits, c: Choice, x: Stop, ys: seq<Stop>)
    requires Walk(now, o, lim, c, ys) && Finds(c, x) && Hop(now, o, lim, c, x, ys[0])
    ensures Walk(now, o, lim, c, [x] + ys) && ([x] + ys)[|[x] + ys| - 1] == ys[|ys| - 1]
  {
    PathJoins(now, o, lim, c, [x], ys);
  }

  lemma WalkPrefix(now: Time, o: OrderId, lim: Limits, c: Choice, stops: seq<Stop>, n: nat)
    requires Walk(now, o, lim, c, stops) && 0 < n <= |stops|
    ensures Walk(now, o, lim, c, stops[..n])
  {
    forall i | 0 < i < n ensures Hop(now, o, lim, c, stops[..n][i - 1], stops[..n][i]) {
      assert Hop(now, o, lim, c, stops[i - 1], stops[i]);
    }
  }

  lemma WalkOne(now: Time, o: OrderId, lim: Limits, c: Choice, x: Stop)
    requires Finds(c, x)
    ensures Walk(now, o, lim, c, [x])
  {
  }

  /** A walk, and then a run from where it ends. */
  lemma {:induction false} WalkThen(w: World, lim: Limits, crashes: Crashes, o: OrderId, c: Choice, stops: seq<Stop>,
                                    n: nat,
                                    rest: seq<Move>, w': World) returns (moves: seq<Move>)
    requires o in w.orders && n < |stops| && w == At(w, o, stops[n]) && Walk(w.now, o, lim, c, stops)
    requires Leads(At(w, o, stops[|stops| - 1]), lim, crashes, rest, w')
    ensures Leads(w, lim, crashes, moves, w')
    decreases |stops| - n
  {
    if n == |stops| - 1 {
      moves := rest;
    } else {
      HopIsMove(w, lim, crashes, o, c, stops[n], stops[n + 1]);
      var w1 := At(w, o, stops[n + 1]);
      assert At(w1, o, stops[n + 1]) == w1 && At(w1, o, stops[|stops| - 1]) == At(w, o, stops[|stops| - 1]);
      var tail := WalkThen(w1, lim, crashes, o, c, stops, n + 1, rest, w');
      LeadsCons(w, lim, crashes, Statement(o, c), tail, w');
      moves := [Statement(o, c)] + tail;
    }
  }

  // ---- The candidate query has an answer ----

  /** No two seats of an event share an ordinal. */
  ghost predicate UniqueOrdinals(t: Table) {
    forall k, k' | k in t && k' in t && k.event == k'.event && t[k].ordinal == t[k'].ordinal :: k == k'
  }

  /** cs lists exactly the seats of ks, by ordinal. */
  ghost predicate Ordered(t: Table, ks: set<Key>, cs: seq<BestAvailable.Candidate>, event: int) {
    && (forall i, j | 0 <= i < j < |cs| :: cs[i].ordinal < cs[j].ordinal)
    && (forall i | 0 <= i < |cs| :: var k := Key(event, cs[i].seat); k in ks && k in t && t[k].ordinal == cs[i].ordinal && t[k].rowId == cs[i].rowId)
    && (forall k | k in ks :: k.event == event && exists i :: 0 <= i < |cs| && cs[i].seat == k.seat)
  }

  lemma {:induction false} LastByOrdinal(t: Table, ks: set<Key>) returns (last: Key)
    requires ks != {} && ks <= t.Keys
    ensures last in ks && forall k | k in ks :: t[k].ordinal <= t[last].ordinal
    decreases |ks|
  {
    var k :| k in ks;
    if ks == {k} {
      last := k;
    } else {
      var other := LastByOrdinal(t, ks - {k});
      last := if t[other].ordinal < t[k].ordinal then k else other;
    }
  }

  lemma {:induction false} OrderedExists(t: Table, event: int, ks: set<Key>) returns (cs: seq<BestAvailable.Candidate>)
    requires UniqueOrdinals(t) && ks <= t.Keys && forall k | k in ks :: k.event == event
    ensures Ordered(t, ks, cs, event)
    decreases |ks|
  {
    if ks == {} {
      cs := [];
    } else {
      var last := LastByOrdinal(t, ks);
      var init := OrderedExists(t, event, ks - {last});
      cs := init + [BestAvailable.Candidate(last.seat, t[last].ordinal, t[last].rowId)];
      AppendsLast(t, ks, init, event, last);
    }
  }

  lemma AppendsLast(t: Table, ks: set<Key>, init: seq<BestAvailable.Candidate>, event: int, last: Key)
    requires UniqueOrdinals(t) && ks <= t.Keys && last in ks && last.event == event
    requires forall k | k in ks :: k.event == event && t[k].ordinal <= t[last].ordinal
    requires Ordered(t, ks - {last}, init, event)
    ensures Ordered(t, ks, init + [BestAvailable.Candidate(last.seat, t[last].ordinal, t[last].rowId)], event)
  {
    var cs := init + [BestAvailable.Candidate(last.seat, t[last].ordinal, t[last].rowId)];
    assert last == Key(event, last.seat);
    forall k | k in ks ensures exists i :: 0 <= i < |cs| && cs[i].seat == k.seat {
      if k == last { assert cs[|init|].seat == k.seat; } else {
        var i :| 0 <= i < |init| && init[i].seat == k.seat;
        assert cs[i].seat == k.seat;
      }
    }
  }

  lemma CandidatesExist(t: Table, event: int, maxPrice: int) returns (cs: seq<BestAvailable.Candidate>)
    requires UniqueOrdinals(t)
    ensures BestAvailable.IsCandidateList(t, event, maxPrice, cs)
  {
    var ks := set k | k in t && k.event == event && BestAvailable.Offered(t, event, maxPrice, k.seat);
    cs := OrderedExists(t, event, ks);
    forall seat | BestAvailable.Offered(t, event, maxPrice, seat) ensures exists i :: 0 <= i < |cs| && cs[i].seat == seat {
      assert Key(event, seat) in ks;
    }
  }

  // ---- Columns nobody writes ----

  lemma StepKeepsColumns(w: World, lim: Limits, m: Move)
    requires Enabled(w, m)
    ensures SameColumns(w.table, Next(w, lim, m).table)
  {
    match m
    case Others(step) => OthersBookNothing(w.table, w.now, step);
    case Statement(o, c) => StatementBooks(w.table, w.now, o, w.orders[o].pc, lim, c);
    case _ =>
  }

  lemma {:induction false} RunKeepsOrdinals(w: World, lim: Limits, moves: seq<Move>, crashes: Crashes)
    requires UniqueOrdinals(w.table) && Possible(w, lim, moves, crashes)
    ensures UniqueOrdinals(Run(w, lim, moves, crashes).table)
    decreases moves
  {
    if moves != [] {
      StepKeepsColumns(w, lim, moves[0]);
      RunKeepsOrdinals(Next(w, lim, moves[0]), lim, moves[1..], crashes);
    }
  }
}
