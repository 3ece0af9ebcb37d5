/** The query guard: the depth and size a GraphQL operation would have with every
    fragment written out, measured without writing any out. */
module Limits {
  const FIELD_COUNT_CAP: nat := 0x4000_0000

  datatype Selection =
    | Field(name: string, selections: seq<Selection>)
    | Spread(fragment: string)
    | Inline(selections: seq<Selection>)

  type Fragments = map<string, seq<Selection>>

  datatype Shape = Shape(depth: nat, fields: nat)

  predicate Introspective(name: string) {
    |name| >= 2 && name[0] == '_' && name[1] == '_'
  }

  // ---- Documents ----

  /** Every spread in the set names a fragment of a rank below n. */
  predicate Below(fragments: Fragments, rank: map<string, nat>, n: nat, s: seq<Selection>) {
    s == [] || (Below(fragments, rank, n, s[..|s| - 1]) && BelowOne(fragments, rank, n, s[|s| - 1]))
  }

  predicate BelowOne(fragments: Fragments, rank: map<string, nat>, n: nat, one: Selection) {
    match one
    case Field(_, inner) => Below(fragments, rank, n, inner)
    case Inline(inner) => Below(fragments, rank, n, inner)
    case Spread(f) => f in fragments && f in rank && rank[f] < n
  }

  /** Fragments spread only fragments of a lower rank: no cycles, as section 5.5.2.2 of
      the GraphQL specification (October 2021) demands. */
  predicate Acyclic(fragments: Fragments, rank: map<string, nat>) {
    forall f | f in fragments :: f in rank && Below(fragments, rank, rank[f], fragments[f])
  }

  // ---- Full expansion ----

  datatype Tree = Node(children: seq<Tree>)

  /** The fields of a set with every fragment written out, introspection fields left out. */
  function Expanded(fragments: Fragments, rank: map<string, nat>, n: nat, s: seq<Selection>): seq<Tree>
    requires Acyclic(fragments, rank) && Below(fragments, rank, n, s)
    decreases n, s
  {
    if s == [] then []
    else Expanded(fragments, rank, n, s[..|s| - 1]) + ExpandedOne(fragments, rank, n, s[|s| - 1])
  }

  function ExpandedOne(fragments: Fragments, rank: map<string, nat>, n: nat, one: Selection): seq<Tree>
    requires Acyclic(fragments, rank) && BelowOne(fragments, rank, n, one)
    decreases n, one
  {
    match one
    case Field(name, inner) => if Introspective(name) then [] else [Node(Expanded(fragments, rank, n, inner))]
    case Inline(inner) => Expanded(fragments, rank, n, inner)
    case Spread(f) => Expanded(fragments, rank, rank[f], fragments[f])
  }

  function Max(a: nat, b: nat): nat {
    if a < b then b else a
  }

  function Capped(a: nat): nat {
    if a < FIELD_COUNT_CAP then a else FIELD_COUNT_CAP
  }

  function Depth(ts: seq<Tree>): nat {
    if ts == [] then 0 else Max(Depth(ts[..|ts| - 1]), 1 + Depth(ts[|ts| - 1].children))
  }

  function Count(ts: seq<Tree>): nat {
    if ts == [] then 0 else Count(ts[..|ts| - 1]) + 1 + Count(ts[|ts| - 1].children)
  }

  function ShapeOf(ts: seq<Tree>): Shape {
    Shape(Depth(ts), Capped(Count(ts)))
  }

  lemma {:induction false} ConcatShape(a: seq<Tree>, b: seq<Tree>)
    ensures Depth(a + b) == Max(Depth(a), Depth(b)) && Count(a + b) == Count(a) + Count(b)
    decreases b
  {
    if b == [] {
      assert a + b == a;
    } else {
      var init := b[..|b| - 1];
      ConcatShape(a, init);
      assert (a + b)[..|a + b| - 1] == a + init;
    }
  }

  // ---- Full expansion is the document with every fragment written out ----

  lemma NodeAlone(children: seq<Tree>)
    ensures Depth([Node(children)]) == 1 + Depth(children) && Count([Node(children)]) == 1 + Count(children)
  {
    var ts := [Node(children)];
    assert ts[..|ts| - 1] == [] && ts[|ts| - 1].children == children;
    assert Depth(ts) == Max(Depth([]), 1 + Depth(children)) && Count(ts) == Count([]) + 1 + Count(children);
  }

  /** Every spread replaced by what its fragment says. */
  function WrittenOut(fragments: Fragments, rank: map<string, nat>, n: nat, s: seq<Selection>): seq<Selection>
    requires Acyclic(fragments, rank) && Below(fragments, rank, n, s)
    decreases n, s
  {
    if s == [] then []
    else WrittenOut(fragments, rank, n, s[..|s| - 1]) + [WrittenOne(fragments, rank, n, s[|s| - 1])]
  }

  function WrittenOne(fragments: Fragments, rank: map<string, nat>, n: nat, one: Selection): Selection
    requires Acyclic(fragments, rank) && BelowOne(fragments, rank, n, one)
    decreases n, one
  {
    match one
    case Field(name, inner) => Field(name, WrittenOut(fragments, rank, n, inner))
    case Inline(inner) => Inline(WrittenOut(fragments, rank, n, inner))
    case Spread(f) => Inline(WrittenOut(fragments, rank, rank[f], fragments[f]))
  }

  /** The deepest nesting of fields, introspection and what is below it left out. */
  function FieldDepth(s: seq<Selection>): nat {
    if s == [] then 0 else Max(FieldDepth(s[..|s| - 1]), FieldDepthOne(s[|s| - 1]))
  }

  function FieldDepthOne(one: Selection): nat {
    match one
    case Field(name, inner) => if Introspective(name) then 0 else 1 + FieldDepth(inner)
    case Inline(inner) => FieldDepth(inner)
    case Spread(_) => 0
  }

  /** How many fields there are, introspection and what is below it left out. */
  function FieldCount(s: seq<Selection>): nat {
    if s == [] then 0 else FieldCount(s[..|s| - 1]) + FieldCountOne(s[|s| - 1])
  }

  function FieldCountOne(one: Selection): nat {
    match one
    case Field(name, inner) => if Introspective(name) then 0 else 1 + FieldCount(inner)
    case Inline(inner) => FieldCount(inner)
    case Spread(_) => 0
  }

  lemma {:induction false} ExpansionIsWrittenOut(fragments: Fragments, rank: map<string, nat>, n: nat,
                                                 s: seq<Selection>)
    requires Acyclic(fragments, rank) && Below(fragments, rank, n, s)
    ensures Depth(Expanded(fragments, rank, n, s)) == FieldDepth(WrittenOut(fragments, rank, n, s))
    ensures Count(Expanded(fragments, rank, n, s)) == FieldCount(WrittenOut(fragments, rank, n, s))
    decreases n, s
  {
    if s != [] {
      var init, last := s[..|s| - 1], s[|s| - 1];
      ExpansionIsWrittenOut(fragments, rank, n, init);
      OneIsWrittenOut(fragments, rank, n, last);
      ConcatShape(Expanded(fragments, rank, n, init), ExpandedOne(fragments, rank, n, last));
      var out := WrittenOut(fragments, rank, n, s);
      assert out[..|out| - 1] == WrittenOut(fragments, rank, n, init);
    }
  }

  lemma {:induction false} OneIsWrittenOut(fragments: Fragments, rank: map<string, nat>, n: nat, one: Selection)
    requires Acyclic(fragments, rank) && BelowOne(fragments, rank, n, one)
    ensures Depth(ExpandedOne(fragments, rank, n, one)) == FieldDepthOne(WrittenOne(fragments, rank, n, one))
    ensures Count(ExpandedOne(fragments, rank, n, one)) == FieldCountOne(WrittenOne(fragments, rank, n, one))
    decreases n, one
  {
    match one
    case Field(name, inner) =>
      ExpansionIsWrittenOut(fragments, rank, n, inner);
      NodeAlone(Expanded(fragments, rank, n, inner));
    case Inline(inner) => ExpansionIsWrittenOut(fragments, rank, n, inner);
    case Spread(f) => ExpansionIsWrittenOut(fragments, rank, rank[f], fragments[f]);
  }

  // ---- The memoised measure ----

  /** All selections written in a set, however deep. */
  function Size(s: seq<Selection>): nat {
    if s == [] then 0 else Size(s[..|s| - 1]) + SizeOne(s[|s| - 1])
  }

  function SizeOne(one: Selection): nat {
    1 + match one
        case Field(_, inner) => Size(inner)
        case Inline(inner) => Size(inner)
        case Spread(_) => 0
  }

  function Join(a: Shape, b: Shape): Shape {
    Shape(Max(a.depth, b.depth), Capped(a.fields + b.fields))
  }

  function BodySizes(fragments: Fragments, names: seq<string>): nat {
    if names == [] then 0
    else BodySizes(fragments, names[..|names| - 1]) + (var f := names[|names| - 1]; if f in fragments then Size(fragments[f]) else 0)
  }

  lemma {:induction false} BodySizesConcat(fragments: Fragments, a: seq<string>, b: seq<string>)
    ensures BodySizes(fragments, a + b) == BodySizes(fragments, a) + BodySizes(fragments, b)
    decreases b
  {
    if b == [] {
      assert a + b == a;
    } else {
      BodySizesConcat(fragments, a, b[..|b| - 1]);
      assert (a + b)[..|a + b| - 1] == a + b[..|b| - 1];
    }
  }

  predicate Distinct(names: seq<string>) {
    forall i, j | 0 <= i < j < |names| :: names[i] != names[j]
  }

  class Measurer {
    const fragments: Fragments
    ghost const rank: map<string, nat>
    var memo: map<string, Shape>
    /** The fragments whose bodies have been walked, in order of completion. */
    ghost var walked: seq<string>
    /** The selections looked at so far. */
    ghost var visits: nat

    constructor (fragments: Fragments, ghost rank: map<string, nat>)
      requires Acyclic(fragments, rank)
      ensures Valid() && this.fragments == fragments && this.rank == rank && memo == map[] && walked == []
          && visits == 0
    {
      this.fragments, this.rank := fragments, rank;
      memo, walked, visits := map[], [], 0;
    }

    ghost predicate Valid()
      reads this
    {
      && Acyclic(fragments, rank)
      && Distinct(walked)
      && (forall f :: f in memo <==> f in walked)
      && forall f | f in memo :: f in fragments && memo[f] == ShapeOf(Expanded(fragments, rank, rank[f], fragments[f]))
    }

    /** The shape of the fully expanded set. Every fragment body is walked at most once
        however often it is spread, so the work is bounded by what the document says. */
    method Measure(s: seq<Selection>, ghost n: nat) returns (out: Shape)
      requires Valid() && Below(fragments, rank, n, s)
      modifies this
      ensures Valid() && Walked(rank, old(walked), walked, n)
      ensures out == ShapeOf(Expanded(fragments, rank, n, s))
      ensures visits <= old(visits) + Size(s) + Work(fragments, old(walked), walked)
      decreases n, 1, s
    {
      out := Shape(0, 0);
      assert s[..0] == [];
      for i := 0 to |s|
        invariant Valid() && Below(fragments, rank, n, s[..i]) && Walked(rank, old(walked), walked, n)
        invariant out == ShapeOf(Expanded(fragments, rank, n, s[..i]))
        invariant visits <= old(visits) + Size(s[..i]) + Work(fragments, old(walked), walked)
      {
        Prefix(fragments, rank, n, s, i);
        OneMore(fragments, rank, n, s[..i + 1]);
        ghost var before := walked;
        var child := MeasureOne(s[i], n);
        out := Join(out, child);
        WorkAdds(fragments, rank, old(walked), before, walked, n);
      }
      assert s[..|s|] == s;
    }

    /** What one selection adds: nothing for an introspection field, itself and its
        children for any other field, the whole body for a fragment. */
    method MeasureOne(one: Selection, ghost n: nat) returns (child: Shape)
      requires Valid() && BelowOne(fragments, rank, n, one)
      modifies this
      ensures Valid() && Walked(rank, old(walked), walked, n)
      ensures child == ShapeOf(ExpandedOne(fragments, rank, n, one))
      ensures visits <= old(visits) + SizeOne(one) + Work(fragments, old(walked), walked)
      decreases n, 1, one
    {
      visits := visits + 1;
      match one {
        case Field(name, inner) =>
          if Introspective(name) { return Shape(0, 0); }
          child := Measure(inner, n);
          SingleShape(Expanded(fragments, rank, n, inner));
          child := Shape(1 + child.depth, Capped(1 + child.fields));
        case Spread(f) => child := MeasureFragment(f, n);
        case Inline(inner) => child := Measure(inner, n);
      }
    }

    /** The shape of a fragment, from the memo when it has been walked before. */
    method MeasureFragment(f: string, ghost n: nat) returns (child: Shape)
      requires Valid() && f in fragments && f in rank && rank[f] < n
      modifies this
      ensures Valid() && Walked(rank, old(walked), walked, n)
      ensures child == ShapeOf(Expanded(fragments, rank, rank[f], fragments[f]))
      ensures visits <= old(visits) + Work(fragments, old(walked), walked)
      decreases n, 0
    {
      if f in memo { return memo[f]; }
      child := Measure(fragments[f], rank[f]);
      ghost var before := walked;
      memo := memo[f := child];
      walked := walked + [f];
      assert walked[|before|..] == [f] && walked[|before|..][..0] == [];
      WorkAdds(fragments, rank, old(walked), before, walked, n);
    }
  }

  /** The walk only added fragments of a rank below n. */
  ghost predicate Walked(rank: map<string, nat>, before: seq<string>, after: seq<string>, n: nat) {
    before <= after && forall k | |before| <= k < |after| :: after[k] in rank && rank[after[k]] < n
  }

  /** The sizes of the fragment bodies walked in between. */
  ghost function Work(fragments: Fragments, before: seq<string>, after: seq<string>): nat
    requires before <= after
  {
    BodySizes(fragments, after[|before|..])
  }

  lemma {:induction false} WorkAdds(fragments: Fragments, rank: map<string, nat>, a: seq<string>, b: seq<string>,
                                    c: seq<string>, n: nat)
    requires Walked(rank, a, b, n) && Walked(rank, b, c, n)
    ensures Walked(rank, a, c, n) && Work(fragments, a, c) == Work(fragments, a, b) + Work(fragments, b, c)
  {
    assert c[|a|..] == b[|a|..] + c[|b|..];
    BodySizesConcat(fragments, b[|a|..], c[|b|..]);
  }

  /** A prefix of an acyclic set is one, and one selection longer reads off the next. */
  lemma {:induction false} Prefix(fragments: Fragments, rank: map<string, nat>, n: nat, s: seq<Selection>, i: nat)
    requires Below(fragments, rank, n, s) && i < |s|
    ensures Below(fragments, rank, n, s[..i + 1])
    ensures s[..i + 1][..i] == s[..i]
    decreases s
  {
    if i + 1 == |s| {
      assert s[..i + 1] == s;
    } else {
      var init := s[..|s| - 1];
      Prefix(fragments, rank, n, init, i);
      assert init[..i + 1] == s[..i + 1];
    }
  }

  lemma {:induction false} OneMore(fragments: Fragments, rank: map<string, nat>, n: nat, s: seq<Selection>)
    requires Acyclic(fragments, rank) && Below(fragments, rank, n, s) && s != []
    ensures ShapeOf(Expanded(fragments, rank, n, s))
            == Join(ShapeOf(Expanded(fragments, rank, n, s[..|s| - 1])),
                    ShapeOf(ExpandedOne(fragments, rank, n, s[|s| - 1])))
  {
    JoinShape(Expanded(fragments, rank, n, s[..|s| - 1]), ExpandedOne(fragments, rank, n, s[|s| - 1]));
  }

  lemma {:induction false} JoinShape(a: seq<Tree>, b: seq<Tree>)
    ensures ShapeOf(a + b) == Join(ShapeOf(a), ShapeOf(b))
  {
    ConcatShape(a, b);
  }

  lemma {:induction false} SingleShape(children: seq<Tree>)
    ensures ShapeOf([Node(children)]) == Shape(1 + Depth(children), Capped(1 + Count(children)))
  {
    NodeAlone(children);
  }

  // ---- The guard ----

  datatype Verdict = Accepted | TooDeep(depth: nat) | TooLarge(fields: nat)

  function Judge(got: Shape, maxDepth: int, maxFields: int): Verdict {
    if got.depth > maxDepth then TooDeep(got.depth)
    else if got.fields > maxFields then TooLarge(got.fields)
    else Accepted
  }

  /** What the guard decides from the saturated measure is what full expansion would
      decide, for every field limit below the cap; at or above it no operation is ever
      too large, whatever its expansion. */
  lemma {:induction false} VerdictIsExact(ts: seq<Tree>, maxDepth: int, maxFields: int)
    ensures Judge(ShapeOf(ts), maxDepth, maxFields).TooDeep? <==> Depth(ts) > maxDepth
    ensures Judge(ShapeOf(ts), maxDepth, maxFields).Accepted?
            <==> Depth(ts) <= maxDepth && (Count(ts) <= maxFields || FIELD_COUNT_CAP <= maxFields)
  {
  }

  /** The guard on one operation; all lists the document's fragments. */
  method Check(fragments: Fragments, ghost rank: map<string, nat>, ghost n: nat, ghost all: seq<string>,
               operation: seq<Selection>, maxDepth: int, maxFields: int)
    returns (v: Verdict, ghost visits: nat)
    requires Acyclic(fragments, rank) && Below(fragments, rank, n, operation) && forall f | f in fragments :: f in all
    ensures var ts := Expanded(fragments, rank, n, operation);
            && (v.Accepted? <==> Depth(ts) <= maxDepth && (Count(ts) <= maxFields || FIELD_COUNT_CAP <= maxFields))
            && (v.TooDeep? <==> Depth(ts) > maxDepth)
            && (v.TooDeep? ==> v.depth == Depth(ts))
            && (v.TooLarge? ==> v.fields == if Count(ts) < FIELD_COUNT_CAP then Count(ts) else FIELD_COUNT_CAP)
    ensures visits <= Size(operation) + BodySizes(fragments, all)
  {
    var m := new Measurer(fragments, rank);
    var got := m.Measure(operation, n);
    v, visits := Judge(got, maxDepth, maxFields), m.visits;
    VerdictIsExact(Expanded(fragments, rank, n, operation), maxDepth, maxFields);
    assert m.walked[0..] == m.walked;
    DistinctBodies(fragments, m.walked, all);
  }

  /** Distinct fragments of the document are together no larger than all of them: the
      whole measure looks at no more selections than the document has. */
  lemma {:induction false} DistinctBodies(fragments: Fragments, walked: seq<string>, all: seq<string>)
    requires Distinct(walked) && forall k | 0 <= k < |walked| :: walked[k] in all
    ensures BodySizes(fragments, walked) <= BodySizes(fragments, all)
    decreases walked
  {
    if walked != [] {
      var init, f := walked[..|walked| - 1], walked[|walked| - 1];
      var j :| 0 <= j < |all| && all[j] == f;
      var others := all[..j] + all[j + 1..];
      forall k | 0 <= k < |init| ensures init[k] in others {
        var i :| 0 <= i < |all| && all[i] == walked[k];
        assert i != j;
        if i < j { assert others[i] == walked[k]; } else { assert others[i - 1] == walked[k]; }
      }
      DistinctBodies(fragments, init, others);
      BodyTakenOut(fragments, all, j);
    }
  }

  lemma {:induction false} BodyTakenOut(fragments: Fragments, all: seq<string>, j: nat)
    requires j < |all|
    ensures BodySizes(fragments, all)
            == BodySizes(fragments, all[..j] + all[j + 1..]) + if all[j] in fragments then Size(fragments[all[j]]) else 0
  {
    BodySizesConcat(fragments, all[..j], all[j + 1..]);
    BodySizesConcat(fragments, all[..j + 1], all[j + 1..]);
    assert all == all[..j + 1] + all[j + 1..];
    assert all[..j + 1][..j] == all[..j];
  }
}
