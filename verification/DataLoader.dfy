/** The batching loader: loads gather in one pending batch, which is sent once, by its
    timer or by the load that fills it, whichever comes first. Every locked section and
    every step of a batch's goroutine is one step; they interleave freely. */
module DataLoaders {
  import opened Wrappers

  /** How far one run of a batch has come. */
  datatype Stage = Started | Fetched | Closed

  /** What the fetch came back with; a panic counts as a failure. */
  datatype Answer<K, V> = Results(values: map<K, V>) | Failed

  /** timer: armed, or fired and still waiting for the lock. runs: the goroutines ever
      started for it. fetches: the keys each of them asked for. closes: how often done
      was closed. */
  datatype Batch<K, V> = Batch(keys: seq<K>, sent: bool, timer: bool, runs: seq<Stage>,
                               fetches: seq<seq<K>>, answer: Option<Answer<K, V>>, closes: nat)

  datatype State<K, V> = State(all: seq<Batch<K, V>>, batches: map<K, nat>, pending: Option<nat>)

  datatype Move<K, V> =
    | Load(key: K)
    | TimerFires(b: nat)
    | Fetch(b: nat, run: nat, answer: Answer<K, V>)
    | Close(b: nat, run: nat)

  function NewBatch<K, V>(): Batch<K, V> {
    Batch([], false, true, [], [], None, 0)
  }

  function Sent<K, V>(b: Batch<K, V>): Batch<K, V> {
    b.(sent := true, runs := b.runs + [Started])
  }

  /** The pending batch's place, and the batches with one pending. */
  function Slot<K, V>(s: State<K, V>): nat {
    if s.pending.Some? then s.pending.value else |s.all|
  }

  function Opened<K, V>(s: State<K, V>): seq<Batch<K, V>> {
    if s.pending.Some? then s.all else s.all + [NewBatch()]
  }

  function Enqueued<K, V>(s: State<K, V>, key: K, maxBatch: int): State<K, V>
    requires s.pending.Some? ==> s.pending.value < |s.all|
  {
    var all, n := Opened(s), Slot(s);
    var b := all[n].(keys := all[n].keys + [key]);
    if |b.keys| >= maxBatch then State(all[n := Sent(b)], s.batches[key := n], None)
    else State(all[n := b], s.batches[key := n], Some(n))
  }

  predicate Enabled<K, V>(s: State<K, V>, m: Move<K, V>) {
    match m
    case Load(_) => s.pending.Some? ==> s.pending.value < |s.all|
    case TimerFires(b) => b < |s.all| && s.all[b].timer
    case Fetch(b, run, _) => b < |s.all| && run < |s.all[b].runs| && s.all[b].runs[run] == Started
    case Close(b, run) => b < |s.all| && run < |s.all[b].runs| && s.all[b].runs[run] == Fetched
  }

  function Next<K(==), V>(s: State<K, V>, m: Move<K, V>, maxBatch: int): State<K, V>
    requires Enabled(s, m)
  {
    match m
    case Load(key) => if key in s.batches then s else Enqueued(s, key, maxBatch)
    case TimerFires(b) =>
      var fired := s.all[b].(timer := false);
      if fired.sent then s.(all := s.all[b := fired]) else State(s.all[b := Sent(fired)], s.batches, None)
    case Fetch(b, run, answer) =>
      var batch := s.all[b];
      s.(all := s.all[b := batch.(runs := batch.runs[run := Fetched], fetches := batch.fetches + [batch.keys], answer := Some(answer))])
    case Close(b, run) =>
      var batch := s.all[b];
      s.(all := s.all[b := batch.(runs := batch.runs[run := Closed], closes := batch.closes + 1)])
  }

  function Largest(maxBatch: int): nat {
    if maxBatch < 1 then 1 else maxBatch
  }

  /** One batch, and how it stands: unsent with its timer running, or sent with exactly
      one run, which asks once for exactly its keys and closes done once. */
  ghost predicate Good<K, V>(b: Batch<K, V>, maxBatch: int) {
    && 0 < |b.keys| <= Largest(maxBatch)
    && (forall i, j | 0 <= i < j < |b.keys| :: b.keys[i] != b.keys[j])
    && (if b.sent then SentOnce(b) else Gathering(b) && |b.keys| < maxBatch)
  }

  ghost predicate Gathering<K, V>(b: Batch<K, V>) {
    !b.sent && b.timer && b.runs == [] && b.fetches == [] && b.answer == None && b.closes == 0
  }

  ghost predicate SentOnce<K, V>(b: Batch<K, V>) {
    b.sent && |b.runs| == 1 &&
    match b.runs[0]
    case Started => b.fetches == [] && b.answer == None && b.closes == 0
    case Fetched => b.fetches == [b.keys] && b.answer.Some? && b.closes == 0
    case Closed => b.fetches == [b.keys] && b.answer.Some? && b.closes == 1
  }

  ghost predicate AllGood<K, V>(s: State<K, V>, maxBatch: int) {
    forall b | 0 <= b < |s.all| :: Good(s.all[b], maxBatch)
  }

  /** The only unsent batch is the pending one. */
  ghost predicate OnlyPending<K, V>(s: State<K, V>) {
    && (s.pending.Some? ==> s.pending.value < |s.all|)
    && forall b | 0 <= b < |s.all| :: !s.all[b].sent <==> s.pending == Some(b)
  }

  /** A key is in the batch the index says and in no other. */
  ghost predicate Indexed<K, V>(s: State<K, V>) {
    && (forall b, i | 0 <= b < |s.all| && 0 <= i < |s.all[b].keys| :: IndexSays(s.batches, s.all[b].keys[i], b))
    && (forall key | key in s.batches :: s.batches[key] < |s.all| && key in s.all[s.batches[key]].keys)
  }

  predicate IndexSays<K>(batches: map<K, nat>, key: K, b: int) {
    key in batches && batches[key] == b
  }

  ghost predicate Inv<K, V>(s: State<K, V>, maxBatch: int) {
    AllGood(s, maxBatch) && OnlyPending(s) && Indexed(s)
  }

  function Empty<K, V>(): State<K, V> {
    State([], map[], None)
  }

  ghost predicate Possible<K, V>(s: State<K, V>, moves: seq<Move<K, V>>, maxBatch: int)
    decreases moves
  {
    moves != [] ==> Enabled(s, moves[0]) && Possible(Next(s, moves[0], maxBatch), moves[1..], maxBatch)
  }

  ghost function Run<K, V>(s: State<K, V>, moves: seq<Move<K, V>>, maxBatch: int): State<K, V>
    requires Possible(s, moves, maxBatch)
    decreases moves
  {
    if moves == [] then s else Run(Next(s, moves[0], maxBatch), moves[1..], maxBatch)
  }

  lemma LoadKeepsGood<K, V>(s: State<K, V>, key: K, maxBatch: int)
    requires Inv(s, maxBatch) && key !in s.batches
    ensures AllGood(Enqueued(s, key, maxBatch), maxBatch) && OnlyPending(Enqueued(s, key, maxBatch))
  {
    var s', n := Enqueued(s, key, maxBatch), Slot(s);
    var before := Opened(s)[n];
    assert Gathering(before) && forall i | 0 <= i < |before.keys| :: before.keys[i] != key by {
      if s.pending.Some? {
        assert Good(s.all[n], maxBatch);
        forall i | 0 <= i < |before.keys| ensures before.keys[i] != key { assert IndexSays(s.batches, s.all[n].keys[i], n); }
      }
    }
    assert Good(s'.all[n], maxBatch);
    forall b | 0 <= b < |s'.all| && b != n ensures s'.all[b] == s.all[b] {}
  }

  lemma LoadKeepsIndex<K, V>(s: State<K, V>, key: K, maxBatch: int)
    requires OnlyPending(s) && Indexed(s) && key !in s.batches
    ensures Indexed(Enqueued(s, key, maxBatch))
  {
    var s', n := Enqueued(s, key, maxBatch), Slot(s);
    var keys := Opened(s)[n].keys;
    assert s'.all[n].keys == keys + [key];
    forall b | 0 <= b < |s'.all| && b != n ensures s'.all[b] == s.all[b] {}
    forall b, i | 0 <= b < |s'.all| && 0 <= i < |s'.all[b].keys| ensures IndexSays(s'.batches, s'.all[b].keys[i], b) {
      if b != n || i < |keys| { assert IndexSays(s.batches, s.all[b].keys[i], b); }
    }
  }

  lemma LoadKeepsInv<K, V>(s: State<K, V>, key: K, maxBatch: int)
    requires Inv(s, maxBatch) && key !in s.batches
    ensures Inv(Enqueued(s, key, maxBatch), maxBatch)
  {
    LoadKeepsGood(s, key, maxBatch);
    LoadKeepsIndex(s, key, maxBatch);
  }

  /** A step of one batch that leaves its keys alone. */
  lemma BatchStepKeepsInv<K, V>(s: State<K, V>, s': State<K, V>, b: nat, maxBatch: int)
    requires Inv(s, maxBatch) && b < |s.all| && |s'.all| == |s.all|
        && s'.all == s.all[b := s'.all[b]] && s'.batches == s.batches
    requires s'.all[b].keys == s.all[b].keys && Good(s'.all[b], maxBatch)
    requires s'.pending == (if s'.all[b].sent && !s.all[b].sent then None else s.pending) && (s.all[b].sent ==> s'.all[b].sent)
    ensures Inv(s', maxBatch)
  {
    forall c | 0 <= c < |s.all| ensures s'.all[c].keys == s.all[c].keys && (c != b ==> s'.all[c] == s.all[c]) {}
    forall c, i | 0 <= c < |s'.all| && 0 <= i < |s'.all[c].keys| ensures IndexSays(s'.batches, s'.all[c].keys[i], c) {
      assert IndexSays(s.batches, s.all[c].keys[i], c);
    }
  }

  lemma StepKeepsInv<K, V>(s: State<K, V>, m: Move<K, V>, maxBatch: int)
    requires Inv(s, maxBatch) && Enabled(s, m)
    ensures Inv(Next(s, m, maxBatch), maxBatch)
  {
    if m.Load? {
      if m.key !in s.batches { LoadKeepsInv(s, m.key, maxBatch); }
    } else {
      assert Good(s.all[m.b], maxBatch);
      BatchStepKeepsInv(s, Next(s, m, maxBatch), m.b, maxBatch);
    }
  }

  lemma {:induction false} RunKeepsInv<K, V>(s: State<K, V>, moves: seq<Move<K, V>>, maxBatch: int)
    requires Inv(s, maxBatch) && Possible(s, moves, maxBatch)
    ensures Inv(Run(s, moves, maxBatch), maxBatch)
    decreases moves
  {
    if moves != [] {
      StepKeepsInv(s, moves[0], maxBatch);
      RunKeepsInv(Next(s, moves[0], maxBatch), moves[1..], maxBatch);
    }
  }

  /** A sent batch is frozen: no later step adds to its keys, sends it again or forgets
      its answer. */
  ghost predicate Frozen<K, V>(b: Batch<K, V>, b': Batch<K, V>) {
    b'.keys == b.keys && b'.sent && |b'.runs| == |b.runs| && (b.answer.Some? ==> b'.answer == b.answer)
  }

  lemma StepFreezes<K, V>(s: State<K, V>, m: Move<K, V>, maxBatch: int, b: nat)
    requires Inv(s, maxBatch) && Enabled(s, m) && b < |s.all| && s.all[b].sent
    ensures b < |Next(s, m, maxBatch).all| && Frozen(s.all[b], Next(s, m, maxBatch).all[b])
  {
    assert Good(s.all[b], maxBatch);
    if m.Load? && m.key !in s.batches { assert Slot(s) != b; }
  }

  lemma {:induction false} SentIsFrozen<K, V>(s: State<K, V>, moves: seq<Move<K, V>>, maxBatch: int, b: nat)
    requires Inv(s, maxBatch) && Possible(s, moves, maxBatch) && b < |s.all| && s.all[b].sent
    ensures b < |Run(s, moves, maxBatch).all| && Frozen(s.all[b], Run(s, moves, maxBatch).all[b])
    decreases moves
  {
    if moves != [] {
      StepKeepsInv(s, moves[0], maxBatch);
      StepFreezes(s, moves[0], maxBatch, b);
      SentIsFrozen(Next(s, moves[0], maxBatch), moves[1..], maxBatch, b);
    }
  }

  /** The protocol, for every interleaving from an empty loader. */
  lemma ProtocolHolds<K, V>(moves: seq<Move<K, V>>, maxBatch: int)
    requires Possible(Empty(), moves, maxBatch)
    ensures Inv(Run(Empty(), moves, maxBatch), maxBatch)
  {
    RunKeepsInv(Empty(), moves, maxBatch);
  }

  /** Every key ever loaded is in exactly one batch, once. */
  lemma OneBatchPerKey<K, V>(s: State<K, V>, maxBatch: int, key: K, b: nat, i: nat, c: nat, j: nat)
    requires Inv(s, maxBatch)
    requires b < |s.all| && i < |s.all[b].keys| && s.all[b].keys[i] == key
    requires c < |s.all| && j < |s.all[c].keys| && s.all[c].keys[j] == key
    ensures b == c && i == j
  {
    assert IndexSays(s.batches, s.all[b].keys[i], b) && IndexSays(s.batches, s.all[c].keys[j], c);
    assert Good(s.all[b], maxBatch);
  }

  // ---- Nobody waits for ever ----

  /** A batch that is not done always has a step of its own to take. */
  lemma NeverStuck<K, V>(s: State<K, V>, maxBatch: int, b: nat, answer: Answer<K, V>)
    requires Inv(s, maxBatch) && b < |s.all| && s.all[b].closes == 0
    ensures Enabled(s, TimerFires(b)) || Enabled(s, Fetch(b, 0, answer)) || Enabled(s, Close(b, 0))
  {
    assert Good(s.all[b], maxBatch);
  }

  /** The steps a batch still has to take. */
  function Work<K, V>(b: Batch<K, V>): nat {
    (if b.timer then 1 else 0)
    + if b.runs == [] then 2 else match b.runs[0] case Started => 2 case Fetched => 1 case Closed => 0
  }

  function AllWork<K, V>(all: seq<Batch<K, V>>): nat {
    if all == [] then 0 else AllWork(all[..|all| - 1]) + Work(all[|all| - 1])
  }

  lemma {:induction false} WorkChanges<K, V>(all: seq<Batch<K, V>>, b: nat, batch: Batch<K, V>)
    requires b < |all|
    ensures AllWork(all[b := batch]) == AllWork(all) - Work(all[b]) + Work(batch)
  {
    var last := |all| - 1;
    if b < last {
      WorkChanges(all[..last], b, batch);
      assert all[b := batch][..last] == all[..last][b := batch];
    } else {
      assert all[b := batch][..last] == all[..last];
    }
  }

  function Loads<K, V>(moves: seq<Move<K, V>>): nat
    decreases moves
  {
    if moves == [] then 0 else (if moves[0].Load? then 1 else 0) + Loads(moves[1..])
  }

  lemma OpenWork<K, V>(s: State<K, V>)
    ensures var all := Opened(s);
            AllWork(all) - AllWork(s.all) == 3 * (|all| - |s.all|) && |s.all| <= |all| <= |s.all| + 1
  {
    if s.pending.None? { assert Opened(s)[..|s.all|] == s.all; }
  }

  /** A key more, sent or not: a gathering batch has its three steps to take all the same. */
  lemma GatherWork<K, V>(batch: Batch<K, V>, keys: seq<K>)
    requires Gathering(batch)
    ensures Work(batch) == Work(batch.(keys := keys)) == Work(Sent(batch.(keys := keys)))
  {
  }

  lemma LoadWork<K, V>(s: State<K, V>, key: K, maxBatch: int)
    requires Inv(s, maxBatch)
    ensures var s' := Enqueued(s, key, maxBatch);
            AllWork(s'.all) - AllWork(s.all) == 3 * (|s'.all| - |s.all|) && |s'.all| <= |s.all| + 1
  {
    var all, n := Opened(s), Slot(s);
    assert Gathering(all[n]) by { if s.pending.Some? { assert Good(s.all[n], maxBatch); } }
    OpenWork(s);
    GatherWork(all[n], all[n].keys + [key]);
    WorkChanges(all, n, Enqueued(s, key, maxBatch).all[n]);
  }

  lemma StepWork<K, V>(s: State<K, V>, m: Move<K, V>, maxBatch: int)
    requires Inv(s, maxBatch) && Enabled(s, m) && !m.Load?
    ensures var s' := Next(s, m, maxBatch);
            AllWork(s'.all) == AllWork(s.all) - 1 && |s'.all| == |s.all|
  {
    assert Good(s.all[m.b], maxBatch);
    WorkChanges(s.all, m.b, Next(s, m, maxBatch).all[m.b]);
  }

  /** Each batch takes exactly three steps of its own, its timer, its fetch and its
      close; so once loads stop, every run of steps ends, with every batch done. */
  lemma {:induction false} ThreeStepsEach<K, V>(s: State<K, V>, moves: seq<Move<K, V>>, maxBatch: int)
    requires Inv(s, maxBatch) && Possible(s, moves, maxBatch)
    ensures var s' := Run(s, moves, maxBatch);
            |moves| - Loads(moves) + AllWork(s'.all) == AllWork(s.all) + 3 * (|s'.all| - |s.all|)
            && |s'.all| <= |s.all| + Loads(moves)
    decreases moves
  {
    if moves != [] {
      if !moves[0].Load? { StepWork(s, moves[0], maxBatch); } else if moves[0].key !in s.batches { LoadWork(s, moves[0].key, maxBatch); }
      StepKeepsInv(s, moves[0], maxBatch);
      ThreeStepsEach(Next(s, moves[0], maxBatch), moves[1..], maxBatch);
    }
  }

  // ---- The loader itself ----

  class DataLoader<K(==, !new), V(==)> {
    const maxBatch: int
    var all: seq<Batch<K, V>>
    var batches: map<K, nat>
    var pending: Option<nat>

    constructor (maxBatch: int)
      ensures this.maxBatch == maxBatch && View() == Empty() && Valid()
    {
      this.maxBatch := maxBatch;
      all, batches, pending := [], map[], None;
    }

    ghost function View(): State<K, V>
      reads this
    {
      State(all, batches, pending)
    }

    ghost predicate Valid()
      reads this
    {
      Inv(View(), maxBatch)
    }

    /** The locked part of a load: the batch that has or will have the key. */
    method Load(key: K) returns (b: nat)
      requires Valid()
      modifies this
      ensures Valid() && View() == Next(old(View()), Move.Load(key), maxBatch)
      ensures b < |all| && key in all[b].keys
    {
      StepKeepsInv(View(), Move.Load(key), maxBatch);
      if key in batches {
        b := batches[key];
      } else {
        b := Enqueue(key);
      }
    }

    method Enqueue(key: K) returns (b: nat)
      requires Valid() && key !in batches
      modifies this
      ensures Valid() && View() == Enqueued(old(View()), key, maxBatch) && b == batches[key]
    {
      LoadKeepsInv(View(), key, maxBatch);
      b := PendingBatch();
      AddTo(b, key);
    }

    /** The pending batch, a new one with its timer armed if there is none. */
    method PendingBatch() returns (b: nat)
      requires OnlyPending(View())
      modifies this`all, this`pending
      ensures all == Opened(old(View())) && b == Slot(old(View())) && pending == Some(b) && b < |all|
    {
      if pending.None? {
        all := all + [NewBatch()];
        pending := Some(|all| - 1);
      }
      b := pending.value;
    }

    /** The key joins the batch, which is sent when that fills it. */
    method AddTo(b: nat, key: K)
      requires b < |all| && pending == Some(b)
      modifies this
      ensures View() == Enqueued(old(View()), key, maxBatch)
    {
      var batch := all[b].(keys := all[b].keys + [key]);
      batches := batches[key := b];
      if |batch.keys| >= maxBatch {
        batch := batch.(sent := true);
        pending := None;
        batch := batch.(runs := batch.runs + [Started]);
      }
      all := all[b := batch];
    }

    /** The timer's locked part: whoever comes second finds the batch sent. */
    method Flush(b: nat)
      requires Valid() && b < |all| && all[b].timer
      modifies this
      ensures Valid() && View() == Next(old(View()), TimerFires(b), maxBatch)
    {
      StepKeepsInv(View(), TimerFires(b), maxBatch);
      var batch := all[b].(timer := false);
      if !batch.sent {
        batch := batch.(sent := true);
        pending := None;
        batch := batch.(runs := batch.runs + [Started]);
      }
      all := all[b := batch];
    }

    /** A batch's goroutine, in its two steps. */
    method FetchKeys(b: nat, run: nat, answer: Answer<K, V>) returns (asked: seq<K>)
      requires Valid() && b < |all| && run < |all[b].runs| && all[b].runs[run] == Started
      modifies this
      ensures Valid() && View() == Next(old(View()), Fetch(b, run, answer), maxBatch) && asked == all[b].keys
    {
      StepKeepsInv(View(), Fetch(b, run, answer), maxBatch);
      asked := all[b].keys;
      var batch := all[b].(fetches := all[b].fetches + [asked], answer := Some(answer));
      all := all[b := batch.(runs := batch.runs[run := Fetched])];
    }

    method CloseDone(b: nat, run: nat)
      requires Valid() && b < |all| && run < |all[b].runs| && all[b].runs[run] == Fetched
      modifies this
      ensures Valid() && View() == Next(old(View()), Close(b, run), maxBatch)
    {
      StepKeepsInv(View(), Close(b, run), maxBatch);
      all := all[b := all[b].(runs := all[b].runs[run := Closed], closes := all[b].closes + 1)];
    }

    /** What a load of key returns once its batch is done: the batch's one answer, which
        was asked for with the key among its keys. */
    method Await(key: K) returns (r: Option<Answer<K, V>>)
      requires Valid() && key in batches
      ensures r.Some? <==> all[batches[key]].closes == 1
      ensures r.Some? ==> r == all[batches[key]].answer && all[batches[key]].fetches == [all[batches[key]].keys] && key in all[batches[key]].keys
    {
      var b := batches[key];
      assert key in all[b].keys && Good(all[b], maxBatch);
      r := if all[b].closes > 0 then all[b].answer else None;
    }
  }
}
