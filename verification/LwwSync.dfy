/** Batches from offline clients: each record upserted by last write wins, at most ten
    photos a site, one event for each record applied, all in one transaction. */
module LwwSync {
  import opened Sets
  import opened Wrappers

  type Id = nat
  type Time = int

  const MAX_PHOTOS: nat := 10

  datatype Place = Place(name: string, latitude: real, longitude: real)
  datatype Site = Site(name: string, notes: string)
  datatype Condition = Good | Moderate | Bad
  datatype Photo = Photo(s3Key: string, latitude: real, longitude: real, condition: Condition)

  /** A record as a client sends it. parent is the location of a site and the site of a
      photo; a location has none and leaves it 0. */
  datatype Input<C> = Input(id: Id, parent: Id, content: C, createdAt: Time, updatedAt: Time)

  datatype Row<C> = Row(parent: Id, content: C, createdAt: Time, updatedAt: Time, createdBy: string)

  datatype Outcome = Applied | IgnoredStale | Conflict | LimitExceeded

  /** What the schema and the statement ask of a new row: a parent that exists, and room
      under it. */
  datatype Rules = Rules(parents: Option<set<Id>>, cap: Option<nat>)

  type Rows<C> = map<Id, Row<C>>

  // ---- One statement ----

  function Siblings<C>(rows: Rows<C>, parent: Id): set<Id> {
    set id | id in rows && rows[id].parent == parent
  }

  predicate Room<C>(rows: Rows<C>, rules: Rules, parent: Id) {
    rules.cap.Some? ==> |Siblings(rows, parent)| < rules.cap.value
  }

  /** The upsert: a new row where there is room, a strictly newer record over an old one. */
  function Upserted<C>(rows: Rows<C>, i: Input<C>, actor: string, room: bool): Rows<C> {
    if i.id in rows then
      if i.updatedAt > rows[i.id].updatedAt
      then rows[i.id := rows[i.id].(content := i.content, updatedAt := i.updatedAt)] else rows
    else if room then rows[i.id := Row(i.parent, i.content, i.createdAt, i.updatedAt, actor)]
    else rows
  }

  /** A new row under a parent that does not exist is an error of the database. */
  predicate Orphan<C>(rows: Rows<C>, rules: Rules, i: Input<C>) {
    i.id !in rows && Room(rows, rules, i.parent) && rules.parents.Some? && i.parent !in rules.parents.value
  }

  function Classified<C(==)>(i: Input<C>, row: Row<C>): Outcome {
    if i.updatedAt > row.updatedAt then Applied
    else if i.updatedAt == row.updatedAt then (if i.content == row.content then Applied else Conflict)
    else IgnoredStale
  }

  function OutcomeOf<C(==)>(rows: Rows<C>, rules: Rules, i: Input<C>): Outcome {
    if i.id in rows then Classified(i, rows[i.id])
    else if Room(rows, rules, i.parent) then Applied
    else LimitExceeded
  }

  /** What an outcome tells the client about the row as it now is. */
  lemma OutcomeMeans<C>(rows: Rows<C>, rules: Rules, i: Input<C>, actor: string)
    ensures var rows', out := Upserted(rows, i, actor, Room(rows, rules, i.parent)), OutcomeOf(rows, rules, i);
            && (out == LimitExceeded <==> i.id !in rows')
            && (out == Applied <==> i.id in rows' && rows'[i.id].updatedAt == i.updatedAt && rows'[i.id].content == i.content)
            && (out == Conflict <==> i.id in rows' && rows'[i.id].updatedAt == i.updatedAt && rows'[i.id].content != i.content)
            && (out == IgnoredStale <==> i.id in rows' && rows'[i.id].updatedAt > i.updatedAt)
            && (out != Applied ==> rows' == rows)
  {
  }

  // ---- A batch of one kind ----

  /** None: a record was refused by the database and the batch stops. */
  datatype Batch<C> = Batch(rows: Rows<C>, outcomes: seq<Outcome>)

  function ApplyAll<C(==)>(rows: Rows<C>, rules: Rules, actor: string, ins: seq<Input<C>>): Option<Batch<C>> {
    if ins == [] then Some(Batch(rows, []))
    else
      var rest := ApplyAll(rows, rules, actor, ins[..|ins| - 1]);
      var i := ins[|ins| - 1];
      if rest.None? || Orphan(rest.value.rows, rules, i) then None
      else Some(Batch(Upserted(rest.value.rows, i, actor, Room(rest.value.rows, rules, i.parent)),
                      rest.value.outcomes + [OutcomeOf(rest.value.rows, rules, i)]))
  }

  lemma {:induction false} FailureSpreads<C>(rows: Rows<C>, rules: Rules, actor: string, ins: seq<Input<C>>, n: nat)
    requires n <= |ins| && ApplyAll(rows, rules, actor, ins[..n]).None?
    ensures ApplyAll(rows, rules, actor, ins).None?
  {
    if n < |ins| {
      assert ins[..|ins| - 1][..n] == ins[..n];
      FailureSpreads(rows, rules, actor, ins[..|ins| - 1], n);
    } else {
      assert ins[..n] == ins;
    }
  }

  method UpsertOne<C(==)>(rows: Rows<C>, rules: Rules, actor: string, i: Input<C>)
    returns (rows': Rows<C>, outcome: Option<Outcome>)
    ensures outcome.None? <==> Orphan(rows, rules, i)
    ensures outcome.Some? ==> outcome.value == OutcomeOf(rows, rules, i) && rows' == Upserted(rows, i, actor, Room(rows, rules, i.parent))
  {
    rows' := rows;
    if i.id in rows {
      if i.updatedAt > rows[i.id].updatedAt {
        rows' := rows[i.id := rows[i.id].(content := i.content, updatedAt := i.updatedAt)];
        return rows', Some(Applied);
      }
      return rows', Some(Classified(i, rows[i.id]));
    }
    if rules.cap.Some? && |Siblings(rows, i.parent)| >= rules.cap.value { return rows', Some(LimitExceeded); }
    if rules.parents.Some? && i.parent !in rules.parents.value { return rows', None; }
    rows' := rows[i.id := Row(i.parent, i.content, i.createdAt, i.updatedAt, actor)];
    return rows', Some(Applied);
  }

  method UpsertBatch<C(==)>(rows: Rows<C>, rules: Rules, actor: string, ins: seq<Input<C>>)
    returns (r: Option<Batch<C>>)
    ensures r == ApplyAll(rows, rules, actor, ins)
  {
    var now, outcomes := rows, [];
    for n := 0 to |ins|
      invariant ApplyAll(rows, rules, actor, ins[..n]) == Some(Batch(now, outcomes))
    {
      assert ins[..n + 1][..n] == ins[..n];
      var outcome;
      now, outcome := UpsertOne(now, rules, actor, ins[n]);
      if outcome.None? {
        FailureSpreads(rows, rules, actor, ins, n + 1);
        return None;
      }
      outcomes := outcomes + [outcome.value];
    }
    assert ins[..|ins|] == ins;
    return Some(Batch(now, outcomes));
  }

  // ---- Submitting a batch again ----

  /** Sending the record again would change nothing. */
  predicate Settled<C>(rows: Rows<C>, rules: Rules, i: Input<C>) {
    if i.id in rows then rows[i.id].updatedAt >= i.updatedAt else !Room(rows, rules, i.parent)
  }

  lemma SiblingsGrow<C>(rows: Rows<C>, j: Input<C>, actor: string, room: bool, parent: Id)
    ensures Siblings(rows, parent) <= Siblings(Upserted(rows, j, actor, room), parent)
    ensures |Siblings(rows, parent)| <= |Siblings(Upserted(rows, j, actor, room), parent)| <= |Siblings(rows, parent)| + 1
  {
    var a, b := Siblings(rows, parent), Siblings(Upserted(rows, j, actor, room), parent);
    assert b == a || b == a + {j.id};
  }

  /** Each record of a batch either has its row afterwards or was turned away for lack of
      room, and there still is none. */
  predicate Placed<C>(rows: Rows<C>, rules: Rules, i: Input<C>) {
    i.id in rows || !Room(rows, rules, i.parent)
  }

  lemma {:induction false} BatchPlaces<C>(rows: Rows<C>, rules: Rules, actor: string, ins: seq<Input<C>>)
    requires ApplyAll(rows, rules, actor, ins).Some?
    ensures forall a | 0 <= a < |ins| :: Placed(ApplyAll(rows, rules, actor, ins).value.rows, rules, ins[a])
  {
    if ins != [] {
      var init, i := ins[..|ins| - 1], ins[|ins| - 1];
      BatchPlaces(rows, rules, actor, init);
      var before := ApplyAll(rows, rules, actor, init).value.rows;
      forall a | 0 <= a < |init| ensures Placed(Upserted(before, i, actor, Room(before, rules, i.parent)), rules, ins[a]) {
        assert init[a] == ins[a];
        SiblingsGrow(before, i, actor, Room(before, rules, i.parent), ins[a].parent);
      }
    }
  }

  /** No row goes away, moves to another parent or gets older. */
  ghost predicate Newer<C>(rows: Rows<C>, rows': Rows<C>) {
    rows'.Keys == rows.Keys && forall id | id in rows :: rows'[id].parent == rows[id].parent && rows'[id].updatedAt >= rows[id].updatedAt
  }

  /** A batch whose records are all placed is never refused; it makes no new rows, and
      brings each row up to every record of it. */
  lemma {:induction false} PlacedBatchUpdates<C>(rows: Rows<C>, rules: Rules, actor: string, ins: seq<Input<C>>)
    requires forall a | 0 <= a < |ins| :: Placed(rows, rules, ins[a])
    ensures ApplyAll(rows, rules, actor, ins).Some? && Newer(rows, ApplyAll(rows, rules, actor, ins).value.rows)
    ensures forall a | 0 <= a < |ins| && ins[a].id in rows ::
              ApplyAll(rows, rules, actor, ins).value.rows[ins[a].id].updatedAt >= ins[a].updatedAt
  {
    if ins != [] {
      var init, i := ins[..|ins| - 1], ins[|ins| - 1];
      PlacedBatchUpdates(rows, rules, actor, init);
      var before := ApplyAll(rows, rules, actor, init).value.rows;
      assert Siblings(before, i.parent) == Siblings(rows, i.parent);
      assert Placed(rows, rules, i);
      forall a | 0 <= a < |ins| && ins[a].id in rows
        ensures Upserted(before, i, actor, Room(before, rules, i.parent))[ins[a].id].updatedAt >= ins[a].updatedAt
      {
        if a < |init| { assert init[a] == ins[a]; }
      }
    }
  }

  lemma {:induction false} SettledBatchChangesNothing<C>(rows: Rows<C>, rules: Rules, actor: string, ins: seq<Input<C>>)
    requires forall a | 0 <= a < |ins| :: Settled(rows, rules, ins[a])
    ensures ApplyAll(rows, rules, actor, ins).Some? && ApplyAll(rows, rules, actor, ins).value.rows == rows
  {
    if ins != [] { SettledBatchChangesNothing(rows, rules, actor, ins[..|ins| - 1]); }
  }

  /** A placed batch changes nothing exactly when no record of it is newer than its row. */
  lemma PlacedBatchChangesNothingIff<C>(rows: Rows<C>, rules: Rules, actor: string, ins: seq<Input<C>>)
    requires forall a | 0 <= a < |ins| :: Placed(rows, rules, ins[a])
    ensures ApplyAll(rows, rules, actor, ins).Some?
    ensures ApplyAll(rows, rules, actor, ins).value.rows == rows
            <==> forall a | 0 <= a < |ins| && ins[a].id in rows :: ins[a].updatedAt <= rows[ins[a].id].updatedAt
  {
    PlacedBatchUpdates(rows, rules, actor, ins);
    if forall a | 0 <= a < |ins| && ins[a].id in rows :: ins[a].updatedAt <= rows[ins[a].id].updatedAt {
      SettledBatchChangesNothing(rows, rules, actor, ins);
    }
  }

  // ---- Last write wins, over any history ----

  /** One record's turn, with whether there was room for it. */
  datatype Submission<C> = Submission(record: Input<C>, actor: string, room: bool)

  function Fold<C>(subs: seq<Submission<C>>): Rows<C> {
    if subs == [] then map[]
    else
      var s := subs[|subs| - 1];
      Upserted(Fold(subs[..|subs| - 1]), s.record, s.actor, s.room)
  }

  function FoldFrom<C>(rows: Rows<C>, subs: seq<Submission<C>>): Rows<C> {
    if subs == [] then rows
    else
      var s := subs[|subs| - 1];
      Upserted(FoldFrom(rows, subs[..|subs| - 1]), s.record, s.actor, s.room)
  }

  /** What becomes of an id depends on its own submissions alone. */
  lemma {:induction false} NewIdFolds<C>(rows: Rows<C>, subs: seq<Submission<C>>, id: Id)
    requires id !in rows
    ensures id in FoldFrom(rows, subs) <==> id in Fold(subs)
    ensures id in Fold(subs) ==> FoldFrom(rows, subs)[id] == Fold(subs)[id]
  {
    if subs != [] { NewIdFolds(rows, subs[..|subs| - 1], id); }
  }

  lemma {:induction false} OldIdFolds<C>(rows: Rows<C>, subs: seq<Submission<C>>, id: Id)
    requires id in rows
    ensures id in FoldFrom(rows, subs)
    ensures forall k | 0 <= k < |subs| && For(subs, id, k) :: subs[k].record.updatedAt <= FoldFrom(rows, subs)[id].updatedAt
  {
    if subs != [] {
      var init := subs[..|subs| - 1];
      OldIdFolds(rows, init, id);
      forall k | 0 <= k < |subs| && For(subs, id, k) ensures subs[k].record.updatedAt <= FoldFrom(rows, subs)[id].updatedAt {
        if k < |init| { assert For(init, id, k); }
      }
    }
  }

  predicate For<C>(subs: seq<Submission<C>>, id: Id, k: int) {
    0 <= k < |subs| && subs[k].record.id == id
  }

  /** Submission c is the first for the id that found room. */
  ghost predicate Creates<C>(subs: seq<Submission<C>>, id: Id, c: int) {
    For(subs, id, c) && subs[c].room && forall k | 0 <= k < c && For(subs, id, k) :: !subs[k].room
  }

  /** Submission w is the first of the greatest updated_at since the creation. */
  ghost predicate Wins<C>(subs: seq<Submission<C>>, id: Id, c: int, w: int) {
    && c <= w && For(subs, id, w)
    && (forall k | c <= k < |subs| && For(subs, id, k) :: subs[k].record.updatedAt <= subs[w].record.updatedAt)
    && (forall k | c <= k < w && For(subs, id, k) :: subs[k].record.updatedAt < subs[w].record.updatedAt)
  }

  /** The row as the history makes it: created by c, written last by w. */
  ghost predicate Shows<C>(row: Row<C>, subs: seq<Submission<C>>, c: int, w: int)
    requires 0 <= c < |subs| && 0 <= w < |subs|
  {
    && row.parent == subs[c].record.parent && row.createdAt == subs[c].record.createdAt
        && row.createdBy == subs[c].actor
    && row.content == subs[w].record.content && row.updatedAt == subs[w].record.updatedAt
  }

  ghost predicate WrittenBy<C>(rows: Rows<C>, subs: seq<Submission<C>>, id: Id, c: int, w: int) {
    id in rows && Creates(subs, id, c) && Wins(subs, id, c, w) && Shows(rows[id], subs, c, w)
  }

  /** Whatever was submitted, in whatever order: a row exists when some submission found
      room for it, its creator and creation time are that one's for ever, and its
      content is the first accepted of the greatest updated_at since. */
  lemma {:induction false} LastWriteWins<C>(subs: seq<Submission<C>>, id: Id)
    ensures id in Fold(subs) ==> exists c, w :: WrittenBy(Fold(subs), subs, id, c, w)
    ensures id !in Fold(subs) ==> forall k | 0 <= k < |subs| && For(subs, id, k) :: !subs[k].room
  {
    if subs != [] {
      var last := |subs| - 1;
      var init := subs[..last];
      LastWriteWins(init, id);
      if id in Fold(init) {
        var c, w :| WrittenBy(Fold(init), init, id, c, w);
        OneMoreSubmission(init, subs[last], Fold(init), id, c, w);
        assert subs == init + [subs[last]];
      } else if id in Fold(subs) {
        assert WrittenBy(Fold(subs), subs, id, last, last) by {
          forall k | 0 <= k < last && For(subs, id, k) ensures !subs[k].room { assert For(init, id, k); }
        }
      } else {
        forall k | 0 <= k < |subs| && For(subs, id, k) ensures !subs[k].room {
          if k < last { assert For(init, id, k); }
        }
      }
    }
  }

  lemma {:induction false} OneMoreSubmission<C>(init: seq<Submission<C>>, s: Submission<C>, rows: Rows<C>, id: Id,
                                                c: int, w: int)
    requires WrittenBy(rows, init, id, c, w)
    ensures exists w' :: WrittenBy(Upserted(rows, s.record, s.actor, s.room), init + [s], id, c, w')
  {
    var w' := if s.record.id == id && s.record.updatedAt > init[w].record.updatedAt then |init| else w;
    PrefixFacts(init, s, id, c, w);
    assert WrittenBy(Upserted(rows, s.record, s.actor, s.room), init + [s], id, c, w');
  }

  lemma {:induction false} PrefixFacts<C>(init: seq<Submission<C>>, s: Submission<C>, id: Id, c: int, w: int)
    requires Creates(init, id, c) && Wins(init, id, c, w)
    ensures Creates(init + [s], id, c)
    ensures Wins(init + [s], id, c, if s.record.id == id && s.record.updatedAt > init[w].record.updatedAt then |init| else w)
  {
    var subs := init + [s];
    forall k | 0 <= k < |init| ensures subs[k] == init[k] && (For(subs, id, k) <==> For(init, id, k)) {}
  }

  /** A batch's records as submissions. */
  function Turns<C(==)>(rows: Rows<C>, rules: Rules, actor: string, ins: seq<Input<C>>): seq<Submission<C>>
    requires ApplyAll(rows, rules, actor, ins).Some?
  {
    if ins == [] then []
    else
      var init, i := ins[..|ins| - 1], ins[|ins| - 1];
      Turns(rows, rules, actor, init) + [Submission(i, actor, Room(ApplyAll(rows, rules, actor, init).value.rows, rules, i.parent))]
  }

  lemma {:induction false} BatchIsFold<C>(subs: seq<Submission<C>>, rules: Rules, actor: string, ins: seq<Input<C>>)
    requires ApplyAll(Fold(subs), rules, actor, ins).Some?
    ensures ApplyAll(Fold(subs), rules, actor, ins).value.rows == Fold(subs + Turns(Fold(subs), rules, actor, ins))
  {
    if ins == [] {
      assert subs + [] == subs;
    } else {
      var init := ins[..|ins| - 1];
      BatchIsFold(subs, rules, actor, init);
      var all := subs + Turns(Fold(subs), rules, actor, ins);
      assert all[..|all| - 1] == subs + Turns(Fold(subs), rules, actor, init);
    }
  }

  lemma {:induction false} BatchIsFoldFrom<C>(rows: Rows<C>, rules: Rules, actor: string, ins: seq<Input<C>>)
    requires ApplyAll(rows, rules, actor, ins).Some?
    ensures var turns := Turns(rows, rules, actor, ins);
            ApplyAll(rows, rules, actor, ins).value.rows == FoldFrom(rows, turns)
            && |turns| == |ins| && forall a | 0 <= a < |ins| :: turns[a].record == ins[a]
  {
    if ins != [] {
      var init, turns := ins[..|ins| - 1], Turns(rows, rules, actor, ins);
      BatchIsFoldFrom(rows, rules, actor, init);
      assert turns[..|turns| - 1] == Turns(rows, rules, actor, init);
    }
  }

  // ---- Exactly when a batch can be sent again ----

  /** Copy a of a record was turned away for lack of room, a later copy made the row, and
      neither that one nor any after it is as new as copy a. */
  ghost predicate Outdone<C>(subs: seq<Submission<C>>, a: int)
    requires 0 <= a < |subs|
  {
    exists c, w :: a < c && Creates(subs, subs[a].record.id, c) && Wins(subs, subs[a].record.id, c, w)
                   && subs[a].record.updatedAt > subs[w].record.updatedAt
  }

  lemma OutdoneBy<C>(subs: seq<Submission<C>>, a: int, c: int, w: int)
    requires 0 <= a < |subs| && Creates(subs, subs[a].record.id, c) && Wins(subs, subs[a].record.id, c, w)
    ensures Outdone(subs, a) <==> subs[a].record.updatedAt > subs[w].record.updatedAt
  {
    var id := subs[a].record.id;
    assert For(subs, id, a);
    if Outdone(subs, a) {
      var c', w' :| a < c' && Creates(subs, id, c') && Wins(subs, id, c',
                                                            w') && subs[a].record.updatedAt > subs[w'].record.updatedAt;
      assert c == c';
      assert For(subs, id, w) && For(subs, id, w');
    }
  }

  /** A record is newer than the row its batch leaves exactly when it was outdone. */
  lemma NewerThanRowIff<C>(rows: Rows<C>, rules: Rules, actor: string, ins: seq<Input<C>>, a: int)
    requires 0 <= a < |ins| && ApplyAll(rows, rules, actor, ins).Some?
    requires ins[a].id in ApplyAll(rows, rules, actor, ins).value.rows
    ensures |Turns(rows, rules, actor, ins)| == |ins|
    ensures ins[a].updatedAt > ApplyAll(rows, rules, actor, ins).value.rows[ins[a].id].updatedAt
            <==> ins[a].id !in rows && Outdone(Turns(rows, rules, actor, ins), a)
  {
    var turns, id := Turns(rows, rules, actor, ins), ins[a].id;
    BatchIsFoldFrom(rows, rules, actor, ins);
    assert For(turns, id, a);
    if id in rows {
      OldIdFolds(rows, turns, id);
    } else {
      NewIdFolds(rows, turns, id);
      LastWriteWins(turns, id);
      var c, w :| WrittenBy(Fold(turns), turns, id, c, w);
      OutdoneBy(turns, a, c, w);
    }
  }

  /** Without a cap nothing is ever turned away. */
  lemma {:induction false} UncappedHaveRoom<C>(rows: Rows<C>, rules: Rules, actor: string, ins: seq<Input<C>>)
    requires rules.cap.None? && ApplyAll(rows, rules, actor, ins).Some?
    ensures forall a | 0 <= a < |Turns(rows, rules, actor, ins)| :: Turns(rows, rules, actor, ins)[a].room
  {
    if ins != [] { UncappedHaveRoom(rows, rules, actor, ins[..|ins| - 1]); }
  }

  /** Sending a batch again changes nothing exactly when no record of it was outdone. */
  lemma BatchAgainIff<C>(rows: Rows<C>, rules: Rules, actor: string, again: string, ins: seq<Input<C>>)
    requires ApplyAll(rows, rules, actor, ins).Some?
    ensures |Turns(rows, rules, actor, ins)| == |ins|
    ensures var once := ApplyAll(rows, rules, actor, ins).value.rows;
            ApplyAll(once, rules, again, ins).Some?
            && (ApplyAll(once, rules, again, ins).value.rows == once
                <==> forall a | 0 <= a < |ins| && ins[a].id !in rows :: !Outdone(Turns(rows, rules, actor, ins), a))
  {
    var once, turns := ApplyAll(rows, rules, actor, ins).value.rows, Turns(rows, rules, actor, ins);
    BatchIsFoldFrom(rows, rules, actor, ins);
    BatchPlaces(rows, rules, actor, ins);
    PlacedBatchChangesNothingIff(once, rules, again, ins);
    forall a | 0 <= a < |ins|
      ensures ins[a].id in once && ins[a].updatedAt > once[ins[a].id].updatedAt
          <==> ins[a].id !in rows && Outdone(turns, a)
    {
      if ins[a].id in once {
        NewerThanRowIff(rows, rules, actor, ins, a);
      } else if ins[a].id !in rows {
        NewIdFolds(rows, turns, ins[a].id);
        LastWriteWins(turns, ins[a].id);
      } else {
        OldIdFolds(rows, turns, ins[a].id);
      }
    }
  }

  lemma UncappedBatchAgain<C>(rows: Rows<C>, rules: Rules, actor: string, again: string, ins: seq<Input<C>>)
    requires rules.cap.None? && ApplyAll(rows, rules, actor, ins).Some?
    ensures var once := ApplyAll(rows, rules, actor, ins).value.rows;
            ApplyAll(once, rules, again, ins).Some? && ApplyAll(once, rules, again, ins).value.rows == once
  {
    var turns := Turns(rows, rules, actor, ins);
    BatchAgainIff(rows, rules, actor, again, ins);
    UncappedHaveRoom(rows, rules, actor, ins);
    forall a | 0 <= a < |ins| ensures !Outdone(turns, a) { assert For(turns, turns[a].record.id, a); }
  }

  // ---- The photo cap ----

  ghost predicate WithinCap<C>(rows: Rows<C>, cap: nat) {
    forall parent :: |Siblings(rows, parent)| <= cap
  }

  lemma UpsertWithinCap<C>(rows: Rows<C>, rules: Rules, i: Input<C>, actor: string)
    requires rules.cap.Some? && WithinCap(rows, rules.cap.value)
    ensures WithinCap(Upserted(rows, i, actor, Room(rows, rules, i.parent)), rules.cap.value)
  {
    var rows' := Upserted(rows, i, actor, Room(rows, rules, i.parent));
    forall parent ensures |Siblings(rows', parent)| <= rules.cap.value {
      SiblingsGrow(rows, i, actor, Room(rows, rules, i.parent), parent);
      if i.id in rows || parent != i.parent { assert Siblings(rows', parent) == Siblings(rows, parent); }
    }
  }

  lemma {:induction false} BatchWithinCap<C>(rows: Rows<C>, rules: Rules, actor: string, ins: seq<Input<C>>)
    requires rules.cap.Some? && WithinCap(rows, rules.cap.value) && ApplyAll(rows, rules, actor, ins).Some?
    ensures WithinCap(ApplyAll(rows, rules, actor, ins).value.rows, rules.cap.value)
  {
    if ins != [] {
      var init, i := ins[..|ins| - 1], ins[|ins| - 1];
      BatchWithinCap(rows, rules, actor, init);
      UpsertWithinCap(ApplyAll(rows, rules, actor, init).value.rows, rules, i, actor);
    }
  }

  // ---- A whole request ----

  datatype Request = Request(locations: seq<Input<Place>>, sites: seq<Input<Site>>, photos: seq<Input<Photo>>)
  datatype Response = Response(locations: seq<Outcome>, sites: seq<Outcome>, photos: seq<Outcome>)
  datatype Db = Db(locations: Rows<Place>, sites: Rows<Site>, photos: Rows<Photo>)

  /** A record of any kind, as an event carries it. */
  datatype Record = PlaceRecord(place: Input<Place>) | SiteRecord(site: Input<Site>) | PhotoRecord(photo: Input<Photo>)

  datatype Event = RecordUpserted(record: Record, actor: string)

  const LOCATION_RULES := Rules(None, None)

  function SiteRules(locations: Rows<Place>): Rules {
    Rules(Some(locations.Keys), None)
  }

  function PhotoRules(sites: Rows<Site>): Rules {
    Rules(Some(sites.Keys), Some(MAX_PHOTOS))
  }

  function Synced(db: Db, actor: string, req: Request): Option<(Db, Response)> {
    var l := ApplyAll(db.locations, LOCATION_RULES, actor, req.locations);
    if l.None? then None
    else
      var s := ApplyAll(db.sites, SiteRules(l.value.rows), actor, req.sites);
      if s.None? then None
      else
        var p := ApplyAll(db.photos, PhotoRules(s.value.rows), actor, req.photos);
        if p.None? then None
        else Some((Db(l.value.rows, s.value.rows, p.value.rows), Response(l.value.outcomes, s.value.outcomes, p.value.outcomes)))
  }

  lemma {:induction false} OneOutcomeEach<C>(rows: Rows<C>, rules: Rules, actor: string, ins: seq<Input<C>>)
    requires ApplyAll(rows, rules, actor, ins).Some?
    ensures |ApplyAll(rows, rules, actor, ins).value.outcomes| == |ins|
  {
    if ins != [] { OneOutcomeEach(rows, rules, actor, ins[..|ins| - 1]); }
  }

  /** Where the applied records stand in a batch. */
  function AppliedAt(outcomes: seq<Outcome>): (at: seq<nat>)
    ensures forall k | 0 <= k < |at| :: at[k] < |outcomes| && outcomes[at[k]] == Applied
    ensures forall j, k | 0 <= j < k < |at| :: at[j] < at[k]
    ensures forall n | 0 <= n < |outcomes| && outcomes[n] == Applied :: n in at
  {
    if outcomes == [] then []
    else
      var last := |outcomes| - 1;
      AppliedAt(outcomes[..last]) + if outcomes[last] == Applied then [last] else []
  }

  function PlaceRecords(ins: seq<Input<Place>>): (rs: seq<Record>)
    ensures |rs| == |ins| && forall k | 0 <= k < |ins| :: rs[k] == PlaceRecord(ins[k])
  {
    seq(|ins|, k requires 0 <= k < |ins| => PlaceRecord(ins[k]))
  }

  function SiteRecords(ins: seq<Input<Site>>): (rs: seq<Record>)
    ensures |rs| == |ins| && forall k | 0 <= k < |ins| :: rs[k] == SiteRecord(ins[k])
  {
    seq(|ins|, k requires 0 <= k < |ins| => SiteRecord(ins[k]))
  }

  function PhotoRecords(ins: seq<Input<Photo>>): (rs: seq<Record>)
    ensures |rs| == |ins| && forall k | 0 <= k < |ins| :: rs[k] == PhotoRecord(ins[k])
  {
    seq(|ins|, k requires 0 <= k < |ins| => PhotoRecord(ins[k]))
  }

  /** One event for each record applied, in the batch's order. */
  function Events(actor: string, records: seq<Record>, outcomes: seq<Outcome>): seq<Event>
    requires |outcomes| <= |records|
  {
    EventsAt(actor, records, AppliedAt(outcomes))
  }

  function EventsAt(actor: string, records: seq<Record>, at: seq<nat>): seq<Event>
    requires forall k | 0 <= k < |at| :: at[k] < |records|
  {
    seq(|at|, k requires 0 <= k < |at| => RecordUpserted(records[at[k]], actor))
  }

  lemma {:induction false} AppliedAtPrefix(outcomes: seq<Outcome>, n: nat)
    requires n < |outcomes|
    ensures AppliedAt(outcomes[..n + 1]) == AppliedAt(outcomes[..n]) + if outcomes[n] == Applied then [n] else []
  {
    assert outcomes[..n + 1][..n] == outcomes[..n];
  }

  // ---- Which event tells of which record ----

  /** How many of the first n were applied. */
  function AppliedBefore(outcomes: seq<Outcome>, n: nat): nat
    requires n <= |outcomes|
  {
    if n == 0 then 0 else AppliedBefore(outcomes, n - 1) + if outcomes[n - 1] == Applied then 1 else 0
  }

  lemma {:induction false} AppliedBeforePrefix(outcomes: seq<Outcome>, m: nat, n: nat)
    requires n <= m <= |outcomes|
    ensures AppliedBefore(outcomes[..m], n) == AppliedBefore(outcomes, n)
  {
    if n > 0 { AppliedBeforePrefix(outcomes, m, n - 1); }
  }

  lemma {:induction false} AppliedSize(outcomes: seq<Outcome>)
    ensures |AppliedAt(outcomes)| == AppliedBefore(outcomes, |outcomes|)
  {
    if outcomes != [] {
      var last := |outcomes| - 1;
      AppliedSize(outcomes[..last]);
      AppliedBeforePrefix(outcomes, last, last);
    }
  }

  /** The place of an applied record among the applied is how many were applied before it. */
  lemma {:induction false} AppliedRank(outcomes: seq<Outcome>, n: nat)
    requires n < |outcomes| && outcomes[n] == Applied
    ensures AppliedBefore(outcomes, n) < |AppliedAt(outcomes)| && AppliedAt(outcomes)[AppliedBefore(outcomes, n)] == n
    decreases |outcomes|
  {
    var last := |outcomes| - 1;
    if n == last {
      AppliedSize(outcomes[..last]);
      AppliedBeforePrefix(outcomes, last, last);
    } else {
      AppliedRank(outcomes[..last], n);
      AppliedBeforePrefix(outcomes, last, n);
    }
  }

  /** The events tell of exactly the applied records: each one at the place its number
      among them gives it, with the actor. */
  ghost predicate Tells(es: seq<Event>, actor: string, records: seq<Record>, outcomes: seq<Outcome>)
    requires |outcomes| <= |records|
  {
    && |es| == AppliedBefore(outcomes, |outcomes|)
    && forall n | 0 <= n < |outcomes| && outcomes[n] == Applied ::
         var k := AppliedBefore(outcomes, n); k < |es| && es[k] == RecordUpserted(records[n], actor)
  }

  lemma EventsTell(actor: string, records: seq<Record>, outcomes: seq<Outcome>)
    requires |outcomes| <= |records|
    ensures Tells(Events(actor, records, outcomes), actor, records, outcomes)
  {
    AppliedSize(outcomes);
    forall n | 0 <= n < |outcomes| && outcomes[n] == Applied
      ensures var k, es := AppliedBefore(outcomes, n), Events(actor, records, outcomes);
              k < |es| && es[k] == RecordUpserted(records[n], actor)
    {
      AppliedRank(outcomes, n);
    }
  }

  predicate OneEach(req: Request, resp: Response) {
    |resp.locations| == |req.locations| && |resp.sites| == |req.sites| && |resp.photos| == |req.photos|
  }

  function RequestEvents(actor: string, req: Request, resp: Response): seq<Event>
    requires OneEach(req, resp)
  {
    Events(actor, PlaceRecords(req.locations), resp.locations) + Events(actor, SiteRecords(req.sites), resp.sites)
    + Events(actor, PhotoRecords(req.photos), resp.photos)
  }

  /** What a committed request publishes: three stretches, one for each kind, in which the
      applied records are told in their order. */
  ghost predicate TellsRequest(es: seq<Event>, actor: string, req: Request, resp: Response)
    requires OneEach(req, resp)
  {
    var l, s := AppliedBefore(resp.locations, |resp.locations|), AppliedBefore(resp.sites, |resp.sites|);
    && l + s <= |es|
    && Tells(es[..l], actor, PlaceRecords(req.locations), resp.locations)
    && Tells(es[l..l + s], actor, SiteRecords(req.sites), resp.sites)
    && Tells(es[l + s..], actor, PhotoRecords(req.photos), resp.photos)
  }

  lemma RequestTold(actor: string, req: Request, resp: Response)
    requires OneEach(req, resp)
    ensures TellsRequest(RequestEvents(actor, req, resp), actor, req, resp)
  {
    var l, s, p := Events(actor, PlaceRecords(req.locations), resp.locations),
      Events(actor, SiteRecords(req.sites), resp.sites), Events(actor, PhotoRecords(req.photos), resp.photos);
    EventsTell(actor, PlaceRecords(req.locations), resp.locations);
    EventsTell(actor, SiteRecords(req.sites), resp.sites);
    EventsTell(actor, PhotoRecords(req.photos), resp.photos);
    var es := RequestEvents(actor, req, resp);
    assert es[..|l|] == l && es[|l|..|l| + |s|] == s && es[|l| + |s|..] == p;
  }

  class TxRunner {
    var locations: Rows<Place>
    var sites: Rows<Site>
    var photos: Rows<Photo>
    var outbox: seq<Event>

    constructor ()
      ensures View() == Db(map[], map[], map[]) && outbox == []
    {
      locations, sites, photos, outbox := map[], map[], map[], [];
    }

    function View(): Db
      reads this
    {
      Db(locations, sites, photos)
    }

    /** One transaction: the whole batch and one event for each record applied, in order,
        or nothing at all. */
    method Sync(actor: string, req: Request, commitFails: bool) returns (r: Option<Response>)
      modifies this
      ensures r.Some? <==> !commitFails && Synced(old(View()), actor, req).Some?
      ensures r.None? ==> View() == old(View()) && outbox == old(outbox)
      ensures r.Some? ==>
                && (View(), r.value) == Synced(old(View()), actor, req).value && OneEach(req, r.value)
                && outbox == old(outbox) + RequestEvents(actor, req, r.value)
                && TellsRequest(outbox[|old(outbox)|..], actor, req, r.value)
    {
      var before, events := View(), outbox;
      var l := UpsertBatch(locations, LOCATION_RULES, actor, req.locations);
      if l.None? { return None; }
      OneOutcomeEach(locations, LOCATION_RULES, actor, req.locations);
      var s := UpsertBatch(sites, SiteRules(l.value.rows), actor, req.sites);
      if s.None? { return None; }
      OneOutcomeEach(sites, SiteRules(l.value.rows), actor, req.sites);
      var p := UpsertBatch(photos, PhotoRules(s.value.rows), actor, req.photos);
      if p.None? { return None; }
      OneOutcomeEach(photos, PhotoRules(s.value.rows), actor, req.photos);
      var resp := Response(l.value.outcomes, s.value.outcomes, p.value.outcomes);
      PublishAll(actor, req, resp);
      if commitFails {
        outbox := events;
        return None;
      }
      locations, sites, photos := l.value.rows, s.value.rows, p.value.rows;
      return Some(resp);
    }

    method PublishAll(actor: string, req: Request, resp: Response)
      requires OneEach(req, resp)
      modifies this`outbox
      ensures outbox == old(outbox) + RequestEvents(actor, req, resp)
      ensures TellsRequest(outbox[|old(outbox)|..], actor, req, resp)
    {
      Publish(actor, PlaceRecords(req.locations), resp.locations);
      Publish(actor, SiteRecords(req.sites), resp.sites);
      Publish(actor, PhotoRecords(req.photos), resp.photos);
      assert outbox == old(outbox) + RequestEvents(actor, req, resp);
      assert outbox[|old(outbox)|..] == RequestEvents(actor, req, resp);
      RequestTold(actor, req, resp);
    }

    method Publish(actor: string, records: seq<Record>, outcomes: seq<Outcome>)
      requires |outcomes| == |records|
      modifies this`outbox
      ensures outbox == old(outbox) + Events(actor, records, outcomes)
    {
      for n := 0 to |records|
        invariant outbox == old(outbox) + EventsAt(actor, records, AppliedAt(outcomes[..n]))
      {
        AppliedAtPrefix(outcomes, n);
        if outcomes[n] == Applied { outbox := outbox + [RecordUpserted(records[n], actor)]; }
      }
      assert outcomes[..|records|] == outcomes;
    }
  }

  function PhotoTurns(db: Db, actor: string, req: Request): seq<Submission<Photo>>
    requires Synced(db, actor, req).Some?
  {
    Turns(db.photos, PhotoRules(Synced(db, actor, req).value.0.sites), actor, req.photos)
  }

  /** Sending a whole request again, by anyone, is never refused, and leaves every table
      as it is exactly when no new photo of it had a copy turned away from a full site
      that is newer than all the copies from the one that made the row. */
  lemma ResubmissionChangesNothingIff(db: Db, actor: string, again: string, req: Request)
    requires Synced(db, actor, req).Some?
    ensures |PhotoTurns(db, actor, req)| == |req.photos|
    ensures var once := Synced(db, actor, req).value.0;
            Synced(once, again, req).Some?
            && (Synced(once, again, req).value.0 == once
                <==> forall a | 0 <= a < |req.photos| && req.photos[a].id !in db.photos :: !Outdone(PhotoTurns(db, actor, req), a))
  {
    var l := ApplyAll(db.locations, LOCATION_RULES, actor, req.locations).value.rows;
    var s := ApplyAll(db.sites, SiteRules(l), actor, req.sites).value.rows;
    UncappedBatchAgain(db.locations, LOCATION_RULES, actor, again, req.locations);
    UncappedBatchAgain(db.sites, SiteRules(l), actor, again, req.sites);
    BatchAgainIff(db.photos, PhotoRules(s), actor, again, req.photos);
  }

  // ---- Any sequence of requests ----

  datatype Sent = Sent(actor: string, request: Request)

  /** The tables after a sequence of requests; a refused one is rolled back. */
  function After(sent: seq<Sent>): Db {
    if sent == [] then Db(map[], map[], map[])
    else
      var before, last := After(sent[..|sent| - 1]), sent[|sent| - 1];
      var r := Synced(before, last.actor, last.request);
      if r.Some? then r.value.0 else before
  }

  /** Everything committed so far, record by record. */
  datatype Log = Log(locations: seq<Submission<Place>>, sites: seq<Submission<Site>>, photos: seq<Submission<Photo>>)

  function LogOf(sent: seq<Sent>): Log {
    if sent == [] then Log([], [], [])
    else
      var before, log, last := After(sent[..|sent| - 1]), LogOf(sent[..|sent| - 1]), sent[|sent| - 1];
      var r := Synced(before, last.actor, last.request);
      if r.None? then log
      else
        var db := r.value.0;
        Log(log.locations + Turns(before.locations, LOCATION_RULES, last.actor, last.request.locations),
            log.sites + Turns(before.sites, SiteRules(db.locations), last.actor, last.request.sites),
            log.photos + Turns(before.photos, PhotoRules(db.sites), last.actor, last.request.photos))
  }

  /** The tables are what their submissions make them, and no site ever has more than
      ten photos; so LastWriteWins speaks of every table after every sequence of requests. */
  lemma {:induction false} TablesAreFolds(sent: seq<Sent>)
    ensures var db, log := After(sent), LogOf(sent);
            && db.locations == Fold(log.locations) && db.sites == Fold(log.sites) && db.photos == Fold(log.photos)
            && WithinCap(db.photos, MAX_PHOTOS)
  {
    if sent == [] {
      forall parent ensures |Siblings<Photo>(map[], parent)| <= MAX_PHOTOS { assert Siblings<Photo>(map[], parent) == {}; }
    } else {
      var init, last := sent[..|sent| - 1], sent[|sent| - 1];
      TablesAreFolds(init);
      var before, log := After(init), LogOf(init);
      var r := Synced(before, last.actor, last.request);
      if r.Some? {
        BatchIsFold(log.locations, LOCATION_RULES, last.actor, last.request.locations);
        BatchIsFold(log.sites, SiteRules(r.value.0.locations), last.actor, last.request.sites);
        BatchIsFold(log.photos, PhotoRules(r.value.0.sites), last.actor, last.request.photos);
        BatchWithinCap(before.photos, PhotoRules(r.value.0.sites), last.actor, last.request.photos);
      }
    }
  }

  /** The claim for photos, after any sequence of requests. */
  lemma PhotosByLastWrite(sent: seq<Sent>, id: Id)
    requires id in After(sent).photos
    ensures exists c, w :: WrittenBy(After(sent).photos, LogOf(sent).photos, id, c, w)
    ensures |Siblings(After(sent).photos, After(sent).photos[id].parent)| <= MAX_PHOTOS
  {
    TablesAreFolds(sent);
    LastWriteWins(LogOf(sent).photos, id);
  }

  // ---- Parents ----

  ghost predicate ParentsIn<C>(rows: Rows<C>, parents: set<Id>) {
    forall id | id in rows :: rows[id].parent in parents
  }

  lemma {:induction false} BatchParents<C>(rows: Rows<C>, rules: Rules, actor: string, ins: seq<Input<C>>)
    requires rules.parents.Some? && ParentsIn(rows, rules.parents.value) && ApplyAll(rows, rules, actor, ins).Some?
    ensures ParentsIn(ApplyAll(rows, rules, actor, ins).value.rows, rules.parents.value)
  {
    if ins != [] { BatchParents(rows, rules, actor, ins[..|ins| - 1]); }
  }

  /** After any sequence of requests every site is at a location and every photo of a site
      that is there. */
  lemma {:induction false} ParentsExist(sent: seq<Sent>)
    ensures var db := After(sent); ParentsIn(db.sites, db.locations.Keys) && ParentsIn(db.photos, db.sites.Keys)
  {
    if sent != [] {
      var last := sent[|sent| - 1];
      var before := After(sent[..|sent| - 1]);
      ParentsExist(sent[..|sent| - 1]);
      var r := Synced(before, last.actor, last.request);
      if r.Some? {
        SyncGrows(before, last.actor, last.request);
        assert before.locations.Keys <= r.value.0.locations.Keys && before.sites.Keys <= r.value.0.sites.Keys;
        BatchParents(before.sites, SiteRules(r.value.0.locations), last.actor, last.request.sites);
        BatchParents(before.photos, PhotoRules(r.value.0.sites), last.actor, last.request.photos);
      }
    }
  }

  /** The record is the first of a new id, under a parent that does not exist. */
  ghost predicate Strays<C>(rows: Rows<C>, rules: Rules, ins: seq<Input<C>>, a: int)
    requires 0 <= a < |ins|
  {
    && ins[a].id !in rows && rules.parents.Some? && ins[a].parent !in rules.parents.value
    && forall b | 0 <= b < a :: ins[b].id != ins[a].id
  }

  ghost predicate Sends<C>(ins: seq<Input<C>>, id: Id) {
    exists b :: 0 <= b < |ins| && ins[b].id == id
  }

  lemma SendsOneMore<C>(ins: seq<Input<C>>, id: Id)
    requires ins != []
    ensures Sends(ins, id) <==> Sends(ins[..|ins| - 1], id) || ins[|ins| - 1].id == id
  {
    var init := ins[..|ins| - 1];
    if b :| 0 <= b < |init| && init[b].id == id { assert ins[b].id == id; }
    if b :| 0 <= b < |ins| && ins[b].id == id { if b < |init| { assert init[b].id == id; } }
  }

  /** Without a cap a batch is refused exactly for such a record. */
  lemma {:induction false} RefusedIff<C>(rows: Rows<C>, rules: Rules, actor: string, ins: seq<Input<C>>)
    requires rules.cap.None?
    ensures ApplyAll(rows, rules, actor, ins).None? <==> exists a :: 0 <= a < |ins| && Strays(rows, rules, ins, a)
    ensures ApplyAll(rows, rules, actor, ins).Some? ==>
              forall id :: id in ApplyAll(rows, rules, actor, ins).value.rows
                           <==> id in rows || Sends(ins, id)
  {
    if ins != [] {
      var last := |ins| - 1;
      var init := ins[..last];
      RefusedIff(rows, rules, actor, init);
      if a :| 0 <= a < |init| && Strays(rows, rules, init, a) { assert Strays(rows, rules, ins, a); }
      if a :| 0 <= a < last && Strays(rows, rules, ins, a) { assert Strays(rows, rules, init, a); }
      if ApplyAll(rows, rules, actor, init).Some? {
        var before := ApplyAll(rows, rules, actor, init).value.rows;
        if b :| 0 <= b < last && ins[b].id == ins[last].id { assert init[b].id == ins[last].id; }
        assert Orphan(before, rules, ins[last]) <==> Strays(rows, rules, ins, last);
        forall id ensures Sends(ins, id) <==> Sends(init, id) || ins[last].id == id { SendsOneMore(ins, id); }
      }
    }
  }

  // ---- A request sent again after others ----

  /** Rows stay, under their parents, and never get older. */
  ghost predicate Grown<C>(rows: Rows<C>, rows': Rows<C>) {
    forall id | id in rows :: id in rows' && rows'[id].parent == rows[id].parent && rows'[id].updatedAt >= rows[id].updatedAt
  }

  lemma {:induction false} BatchGrows<C>(rows: Rows<C>, rules: Rules, actor: string, ins: seq<Input<C>>)
    requires ApplyAll(rows, rules, actor, ins).Some?
    ensures Grown(rows, ApplyAll(rows, rules, actor, ins).value.rows)
  {
    if ins != [] { BatchGrows(rows, rules, actor, ins[..|ins| - 1]); }
  }

  lemma SiblingsStay<C>(rows: Rows<C>, rows': Rows<C>, parent: Id)
    requires Grown(rows, rows')
    ensures |Siblings(rows, parent)| <= |Siblings(rows', parent)|
  {
    SubsetSmaller(Siblings(rows, parent), Siblings(rows', parent));
  }

  /** The record has a row at least as new. */
  predicate BroughtUp<C>(rows: Rows<C>, i: Input<C>) {
    i.id in rows && rows[i.id].updatedAt >= i.updatedAt
  }

  lemma {:induction false} UncappedBringsUp<C>(rows: Rows<C>, rules: Rules, actor: string, ins: seq<Input<C>>)
    requires rules.cap.None? && ApplyAll(rows, rules, actor, ins).Some?
    ensures forall a | 0 <= a < |ins| :: BroughtUp(ApplyAll(rows, rules, actor, ins).value.rows, ins[a])
  {
    if ins != [] {
      var init := ins[..|ins| - 1];
      UncappedBringsUp(rows, rules, actor, init);
      forall a | 0 <= a < |ins| ensures BroughtUp(ApplyAll(rows, rules, actor, ins).value.rows, ins[a]) {
        if a < |init| { assert BroughtUp(ApplyAll(rows, rules, actor, init).value.rows, init[a]); }
      }
    }
  }

  ghost predicate GrownDb(db: Db, db': Db) {
    Grown(db.locations, db'.locations) && Grown(db.sites, db'.sites) && Grown(db.photos, db'.photos)
  }

  lemma SyncGrows(db: Db, actor: string, req: Request)
    requires Synced(db, actor, req).Some?
    ensures GrownDb(db, Synced(db, actor, req).value.0)
  {
    var db' := Synced(db, actor, req).value.0;
    BatchGrows(db.locations, LOCATION_RULES, actor, req.locations);
    BatchGrows(db.sites, SiteRules(db'.locations), actor, req.sites);
    BatchGrows(db.photos, PhotoRules(db'.sites), actor, req.photos);
  }

  lemma {:induction false} AfterGrows(sent: seq<Sent>, more: seq<Sent>)
    ensures GrownDb(After(sent), After(sent + more))
  {
    if more == [] {
      assert sent + more == sent;
    } else {
      var init, last := more[..|more| - 1], more[|more| - 1];
      assert (sent + more)[..|sent + more| - 1] == sent + init;
      AfterGrows(sent, init);
      if Synced(After(sent + init), last.actor, last.request).Some? { SyncGrows(After(sent + init), last.actor, last.request); }
    }
  }

  /** What a committed request leaves behind: its locations and sites are brought up, its
      photos have their rows or there is no room for them. */
  ghost predicate Left(db: Db, req: Request) {
    && (forall a | 0 <= a < |req.locations| :: BroughtUp(db.locations, req.locations[a]))
    && (forall a | 0 <= a < |req.sites| :: BroughtUp(db.sites, req.sites[a]))
    && (forall a | 0 <= a < |req.photos| :: Placed(db.photos, PhotoRules(db.sites), req.photos[a]))
  }

  lemma SyncLeaves(db: Db, actor: string, req: Request)
    requires Synced(db, actor, req).Some?
    ensures Left(Synced(db, actor, req).value.0, req)
  {
    var db' := Synced(db, actor, req).value.0;
    UncappedBringsUp(db.locations, LOCATION_RULES, actor, req.locations);
    UncappedBringsUp(db.sites, SiteRules(db'.locations), actor, req.sites);
    BatchPlaces(db.photos, PhotoRules(db'.sites), actor, req.photos);
  }

  lemma LeftStays(db: Db, db': Db, req: Request)
    requires Left(db, req) && GrownDb(db, db')
    ensures Left(db', req)
  {
    forall a | 0 <= a < |req.locations| ensures BroughtUp(db'.locations, req.locations[a]) {
      assert BroughtUp(db.locations, req.locations[a]);
    }
    forall a | 0 <= a < |req.sites| ensures BroughtUp(db'.sites, req.sites[a]) {
      assert BroughtUp(db.sites, req.sites[a]);
    }
    forall a | 0 <= a < |req.photos| ensures Placed(db'.photos, PhotoRules(db'.sites), req.photos[a]) {
      assert Placed(db.photos, PhotoRules(db.sites), req.photos[a]);
      SiblingsStay(db.photos, db'.photos, req.photos[a].parent);
    }
  }

  /** No photo the request sends is newer than its row. */
  ghost predicate NothingNewer(photos: Rows<Photo>, req: Request) {
    forall a | 0 <= a < |req.photos| && req.photos[a].id in photos :: req.photos[a].updatedAt <= photos[req.photos[a].id].updatedAt
  }

  lemma LeftDecides(db: Db, again: string, req: Request)
    requires Left(db, req)
    ensures Synced(db, again, req).Some?
    ensures Synced(db, again, req).value.0 == db <==> NothingNewer(db.photos, req)
  {
    SettledBatchChangesNothing(db.locations, LOCATION_RULES, again, req.locations);
    SettledBatchChangesNothing(db.sites, SiteRules(db.locations), again, req.sites);
    PlacedBatchChangesNothingIff(db.photos, PhotoRules(db.sites), again, req.photos);
  }

  /** A lost answer: the request was committed, any others followed, and it is sent again,
      by anyone. It is never refused, and it changes nothing exactly when no photo of it is
      newer than that photo's row by then. */
  lemma LateResubmissionIff(sent: seq<Sent>, actor: string, req: Request, more: seq<Sent>, again: string)
    requires Synced(After(sent), actor, req).Some?
    ensures var db := After(sent + [Sent(actor, req)] + more);
            && Synced(db, again, req).Some?
            && (Synced(db, again, req).value.0 == db <==> NothingNewer(db.photos, req))
  {
    var first := sent + [Sent(actor, req)];
    assert first[..|first| - 1] == sent;
    SyncLeaves(After(sent), actor, req);
    AfterGrows(first, more);
    LeftStays(After(first), After(first + more), req);
    LeftDecides(After(first + more), again, req);
  }

  // ---- A photo sent for two sites ----

  /** Where sending again does change a table: a new photo sent first for a full site and
      then, older, for one with room. The second copy creates it; sent again, the first
      overwrites it. */
  lemma MovedPhotoIsNotIdempotent(sent: seq<Sent>, actor: string, i: Input<Photo>, j: Input<Photo>)
    requires var db := After(sent);
             && i.parent in db.sites && j.parent in db.sites && i.id == j.id && i.id !in db.photos
             && |Siblings(db.photos, i.parent)| == MAX_PHOTOS && |Siblings(db.photos, j.parent)| < MAX_PHOTOS
             && i.updatedAt > j.updatedAt
    ensures var once := Synced(After(sent), actor, Request([], [], [i, j]));
            once.Some? && once.value.1.photos == [LimitExceeded, Applied]
            && var twice := Synced(once.value.0, actor, Request([], [], [i, j]));
               twice.Some? && twice.value.0.photos != once.value.0.photos
  {
    var db := After(sent);
    var rules := PhotoRules(db.sites);
    assert [] + [i] == [i] && [i] + [j] == [i, j];
    ApplyOne(db.locations, LOCATION_RULES, actor, [], Input(0, 0, Place("", 0.0, 0.0), 0, 0));
    ApplyOne(db.sites, SiteRules(db.locations), actor, [], Input(0, 0, Site("", ""), 0, 0));
    ApplyOne(db.photos, rules, actor, [], i);
    ApplyOne(db.photos, rules, actor, [i], j);
    var once := db.photos[j.id := Row(j.parent, j.content, j.createdAt, j.updatedAt, actor)];
    ApplyOne(once, rules, actor, [], i);
    ApplyOne(once, rules, actor, [i], j);
    assert once[i.id].updatedAt == j.updatedAt;
  }

  lemma {:induction false} ApplyOne<C>(rows: Rows<C>, rules: Rules, actor: string, init: seq<Input<C>>, i: Input<C>)
    ensures ApplyAll<C>(rows, rules, actor, []) == Some(Batch(rows, []))
    ensures var rest := ApplyAll(rows, rules, actor, init);
            ApplyAll(rows, rules, actor, init + [i])
            == if rest.None? || Orphan(rest.value.rows, rules, i) then None
               else Some(Batch(Upserted(rest.value.rows, i, actor, Room(rest.value.rows, rules, i.parent)),
                               rest.value.outcomes + [OutcomeOf(rest.value.rows, rules, i)]))
  {
    var ins := init + [i];
    assert ins[..|ins| - 1] == init && ins[|ins| - 1] == i;
  }

  function SomePhoto(k: nat, site: Id): Input<Photo> {
    Input(k, site, Photo("key", 0.0, 0.0, Good), 0, 0)
  }

  function SomePhotos(n: nat, site: Id): seq<Input<Photo>> {
    if n == 0 then [] else SomePhotos(n - 1, site) + [SomePhoto(n - 1, site)]
  }

  /** Photos 0 to n - 1, all of this site. */
  ghost predicate Filled(rows: Rows<Photo>, site: Id, n: nat) {
    && (forall id: Id :: id in rows <==> id < n) && (forall id | id in rows :: rows[id].parent == site)
    && |Siblings(rows, site)| == n
  }

  lemma OneMoreFills(rows: Rows<Photo>, site: Id, n: nat, row: Row<Photo>)
    requires Filled(rows, site, n) && row.parent == site
    ensures Filled(rows[n := row], site, n + 1)
  {
    var before, after := Siblings(rows, site), Siblings(rows[n := row], site);
    forall id: Id ensures id in after <==> id in before || id == n {}
    assert n !in before && after == before + {n};
  }

  /** Up to the cap, photos fill a site one by one. */
  lemma {:induction false} SiteFills(rules: Rules, actor: string, site: Id, n: nat)
    requires rules.parents.Some? && site in rules.parents.value && rules.cap == Some(MAX_PHOTOS) && n <= MAX_PHOTOS
    ensures var b := ApplyAll(map[], rules, actor, SomePhotos(n, site));
            b.Some? && Filled(b.value.rows, site, n)
  {
    if n > 0 {
      SiteFills(rules, actor, site, n - 1);
      ApplyOne(map[], rules, actor, SomePhotos(n - 1, site), SomePhoto(n - 1, site));
      var before := ApplyAll(map[], rules, actor, SomePhotos(n - 1, site)).value.rows;
      var i := SomePhoto(n - 1, site);
      OneMoreFills(before, site, n - 1, Row(i.parent, i.content, i.createdAt, i.updatedAt, actor));
    } else {
      ApplyOne<Photo>(map[], rules, actor, [], SomePhoto(0, site));
      assert SomePhotos(0, site) == [] && Siblings<Photo>(map[], site) == {};
    }
  }

  /** And such a database is reachable, by one request. */
  lemma FullSiteReachable() returns (sent: seq<Sent>)
    ensures var db := After(sent);
            && 1 in db.sites && 2 in db.sites && MAX_PHOTOS !in db.photos
            && |Siblings(db.photos, 1)| == MAX_PHOTOS && |Siblings(db.photos, 2)| < MAX_PHOTOS
  {
    var place, one, two := Input(1, 0, Place("", 0.0, 0.0), 0, 0), Input(1, 1, Site("", ""), 0, 0), Input(2, 1, Site("", ""), 0, 0);
    var req := Request([place], [one, two], SomePhotos(MAX_PHOTOS, 1));
    sent := [Sent("actor", req)];
    assert [] + [place] == [place] && [] + [one] == [one] && [one] + [two] == [one, two];
    ApplyOne(map[], LOCATION_RULES, "actor", [], place);
    var l := ApplyAll(map[], LOCATION_RULES, "actor", [place]).value.rows;
    ApplyOne(map[], SiteRules(l), "actor", [], one);
    ApplyOne(map[], SiteRules(l), "actor", [one], two);
    var s := ApplyAll(map[], SiteRules(l), "actor", [one, two]).value.rows;
    SiteFills(PhotoRules(s), "actor", 1, MAX_PHOTOS);
    var db := Synced(Db(map[], map[], map[]), "actor", req).value.0;
    assert Siblings(db.photos, 2) == {};
    assert sent[..0] == [] && After([]) == Db(map[], map[], map[]) && After(sent) == db;
  }
}
