/** The static layout of a venue: one walk over its seats gives every seat its ordinal,
    and sections, rows, tiers and bounds their ranges. */
module Layout {
  import opened Wrappers
  import opened Bytes
  import SeatsBin

  /** One seat of the walk, with its row and section. */
  datatype Seat = Seat(sectionId: int, sectionName: string, sectionTier: string, sectionClosed: bool,
                       rowId: int, rowLabel: string, seatId: int, seatLabel: string, x: int, y: int)

  type Walk = seq<Seat>

  datatype Box = Box(minX: int, minY: int, maxX: int, maxY: int)

  datatype SectionMeta = SectionMeta(idx: nat, sectionId: int, name: string, tier: string,
                                     firstRow: nat, rowCount: int, firstSeat: nat, seatCount: nat)

  datatype RowMeta = RowMeta(idx: nat, sectionIdx: int, name: string, firstSeat: nat, seatCount: nat)

  // ---- Sections and rows ----

  predicate NewSection(w: Walk, i: nat)
    requires i < |w|
  {
    i == 0 || w[i].sectionId != w[i - 1].sectionId
  }

  predicate NewRow(w: Walk, i: nat)
    requires i < |w|
  {
    i == 0 || w[i].rowId != w[i - 1].rowId
  }

  /** A row belongs to one section. */
  ghost predicate RowsInOneSection(w: Walk) {
    forall i: nat | 0 < i < |w| && NewSection(w, i) :: NewRow(w, i)
  }

  function RowTotal(w: Walk, n: nat): nat
    requires n <= |w|
  {
    if n == 0 then 0 else RowTotal(w, n - 1) + if NewRow(w, n - 1) then 1 else 0
  }

  function SectionTotal(w: Walk, n: nat): nat
    requires n <= |w|
  {
    if n == 0 then 0 else SectionTotal(w, n - 1) + if NewSection(w, n - 1) then 1 else 0
  }

  function WithSection(w: Walk, n: nat, before: seq<SectionMeta>): seq<SectionMeta>
    requires n < |w|
  {
    if NewSection(w, n)
    then before + [SectionMeta(|before|, w[n].sectionId, w[n].sectionName, w[n].sectionTier, RowTotal(w, n), 0, n, 0)]
    else before
  }

  /** Seat n taken into its section. */
  function Seated(w: Walk, n: nat, before: seq<SectionMeta>): (after: seq<SectionMeta>)
    requires n < |w| && (n > 0 ==> |before| > 0)
    ensures |after| == |before| + if NewSection(w, n) then 1 else 0
  {
    var grown := WithSection(w, n, before);
    var last := |grown| - 1;
    grown[last := grown[last].(rowCount := RowTotal(w, n + 1) - grown[last].firstRow, seatCount := grown[last].seatCount + 1)]
  }

  /** The sections after the first n seats. */
  function SectionsOf(w: Walk, n: nat): (ss: seq<SectionMeta>)
    requires n <= |w|
    ensures |ss| == SectionTotal(w, n) && (n > 0 ==> |ss| > 0)
  {
    if n == 0 then [] else Seated(w, n - 1, SectionsOf(w, n - 1))
  }

  function WithRow(w: Walk, n: nat, before: seq<RowMeta>): seq<RowMeta>
    requires n < |w|
  {
    if NewRow(w, n) then before + [RowMeta(|before|, SectionTotal(w, n + 1) - 1, w[n].rowLabel, n, 0)] else before
  }

  /** Seat n taken into its row. */
  function SeatedInRow(w: Walk, n: nat, before: seq<RowMeta>): (after: seq<RowMeta>)
    requires n < |w| && (n > 0 ==> |before| > 0)
    ensures |after| == |before| + if NewRow(w, n) then 1 else 0
  {
    var grown := WithRow(w, n, before);
    var last := |grown| - 1;
    grown[last := grown[last].(seatCount := grown[last].seatCount + 1)]
  }

  function RowsOf(w: Walk, n: nat): (rs: seq<RowMeta>)
    requires n <= |w|
    ensures |rs| == RowTotal(w, n) && (n > 0 ==> |rs| > 0)
  {
    if n == 0 then [] else SeatedInRow(w, n - 1, RowsOf(w, n - 1))
  }

  /** Sections k and k+1 meet, and part where the section id changes. */
  ghost predicate SectionsMeet(w: Walk, ss: seq<SectionMeta>, k: nat)
    requires k + 1 < |ss|
  {
    && ss[k].firstSeat + ss[k].seatCount == ss[k + 1].firstSeat
    && ss[k].firstRow + ss[k].rowCount == ss[k + 1].firstRow
    && ss[k].sectionId != ss[k + 1].sectionId
  }

  /** Seat i is in the section of index k, counting sections as the walk goes. */
  ghost predicate InSection(w: Walk, i: nat, k: int)
    requires i < |w|
  {
    SectionTotal(w, i + 1) == k + 1
  }

  /** Every seat in the section's range is one of its seats, and it is named after its first. */
  ghost predicate SectionSound(w: Walk, n: nat, ss: seq<SectionMeta>, k: nat)
    requires k < |ss| && n <= |w|
  {
    && ss[k].idx == k && ss[k].seatCount > 0 && ss[k].firstSeat + ss[k].seatCount <= n
    && ss[k].name == w[ss[k].firstSeat].sectionName && ss[k].tier == w[ss[k].firstSeat].sectionTier
    && ss[k].firstRow == RowTotal(w, ss[k].firstSeat)
    && (forall i | ss[k].firstSeat <= i < ss[k].firstSeat + ss[k].seatCount ::
          w[i].sectionId == ss[k].sectionId && InSection(w, i, k))
  }

  /** The sections cut the first n seats, and their rows, into consecutive ranges. */
  ghost predicate SectionsPartition(w: Walk, n: nat, ss: seq<SectionMeta>)
    requires n <= |w|
  {
    && (n > 0 ==> |ss| > 0 && ss[0].firstSeat == 0 && ss[0].firstRow == 0)
    && (forall k | 0 <= k < |ss| :: SectionSound(w, n, ss, k))
    && (forall k | 0 <= k < |ss| - 1 :: SectionsMeet(w, ss, k))
    && (n > 0 ==> var last := ss[|ss| - 1]; last.firstSeat + last.seatCount == n && last.firstRow + last.rowCount == RowTotal(w, n))
  }

  lemma {:induction false} SectionsAreRanges(w: Walk, n: nat)
    requires n <= |w|
    ensures SectionsPartition(w, n, SectionsOf(w, n))
  {
    if n > 0 {
      SectionsAreRanges(w, n - 1);
      SectionStep(w, n - 1, SectionsOf(w, n - 1));
    }
  }

  lemma SectionStep(w: Walk, n: nat, before: seq<SectionMeta>)
    requires n < |w| && SectionsPartition(w, n, before) && |before| == SectionTotal(w, n)
    ensures SectionsPartition(w, n + 1, Seated(w, n, before))
  {
    var after, m := Seated(w, n, before), n + 1;
    SectionStepEnds(w, n, before);
    forall k: nat | k < |after| ensures SectionSound(w, m, after, k) { SectionStepSound(w, n, before, k); }
    forall k: nat | k < |after| - 1 ensures SectionsMeet(w, after, k) { SectionStepMeets(w, n, before, k); }
  }

  /** The first section starts the walk and the last ends it. */
  lemma SectionStepEnds(w: Walk, n: nat, before: seq<SectionMeta>)
    requires n < |w| && SectionsPartition(w, n, before) && |before| == SectionTotal(w, n)
    ensures var after := Seated(w, n, before);
            && |after| > 0 && after[0].firstSeat == 0 && after[0].firstRow == 0
            && var last := after[|after| - 1];
               last.firstSeat + last.seatCount == n + 1 && last.firstRow + last.rowCount == RowTotal(w, n + 1)
  {
  }

  lemma SectionStepMeets(w: Walk, n: nat, before: seq<SectionMeta>, k: nat)
    requires n < |w| && SectionsPartition(w, n, before) && |before| == SectionTotal(w, n)
        && k + 1 < |Seated(w, n, before)|
    ensures SectionsMeet(w, Seated(w, n, before), k)
  {
    if k + 1 < |before| { assert SectionsMeet(w, before, k); } else { assert SectionSound(w, n, before, k); }
  }

  lemma SectionStepSound(w: Walk, n: nat, before: seq<SectionMeta>, k: nat)
    requires n < |w| && SectionsPartition(w, n, before) && |before| == SectionTotal(w, n) && k < |Seated(w, n, before)|
    ensures SectionSound(w, n + 1, Seated(w, n, before), k)
  {
    if k < |before| { assert SectionSound(w, n, before, k); }
    if NewSection(w, n) { NewSectionSound(w, n, before, k); } else { SameSectionSound(w, n, before, k); }
  }

  lemma NewSectionSound(w: Walk, n: nat, before: seq<SectionMeta>, k: nat)
    requires n < |w| && NewSection(w, n) && |before| == SectionTotal(w, n) && k <= |before| && (n > 0 ==> |before| > 0)
    requires k < |before| ==> SectionSound(w, n, before, k)
    ensures SectionSound(w, n + 1, Seated(w, n, before), k)
  {
    assert InSection(w, n, |before|);
  }

  lemma SameSectionSound(w: Walk, n: nat, before: seq<SectionMeta>, k: nat)
    requires n < |w| && !NewSection(w, n) && |before| == SectionTotal(w, n) && k < |before|
    requires SectionSound(w, n, before, k) && before[|before| - 1].firstSeat + before[|before| - 1].seatCount == n
    ensures SectionSound(w, n + 1, Seated(w, n, before), k)
  {
    assert InSection(w, n, |before| - 1);
  }

  ghost predicate RowSound(w: Walk, n: nat, rs: seq<RowMeta>, k: nat)
    requires k < |rs| && n <= |w|
  {
    && rs[k].idx == k && rs[k].seatCount > 0 && rs[k].firstSeat + rs[k].seatCount <= n
    && rs[k].name == w[rs[k].firstSeat].rowLabel
    && (forall i | rs[k].firstSeat <= i < rs[k].firstSeat + rs[k].seatCount :: w[i].rowId == w[rs[k].firstSeat].rowId)
    && NewRow(w, rs[k].firstSeat) && RowTotal(w, rs[k].firstSeat) == k
        && InSection(w, rs[k].firstSeat, rs[k].sectionIdx)
  }

  ghost predicate RowsMeet(w: Walk, rs: seq<RowMeta>, k: nat)
    requires k + 1 < |rs|
  {
    rs[k].firstSeat + rs[k].seatCount == rs[k + 1].firstSeat && rs[k].firstSeat < |w| && rs[k + 1].firstSeat < |w|
    && w[rs[k].firstSeat].rowId != w[rs[k + 1].firstSeat].rowId
  }

  /** The rows cut the first n seats into consecutive ranges. */
  ghost predicate RowsPartition(w: Walk, n: nat, rs: seq<RowMeta>)
    requires n <= |w|
  {
    && (n > 0 ==> |rs| > 0 && rs[0].firstSeat == 0)
    && (forall k | 0 <= k < |rs| :: RowSound(w, n, rs, k))
    && (forall k | 0 <= k < |rs| - 1 :: RowsMeet(w, rs, k))
    && (n > 0 ==> rs[|rs| - 1].firstSeat + rs[|rs| - 1].seatCount == n)
  }

  lemma {:induction false} RowsAreRanges(w: Walk, n: nat)
    requires n <= |w|
    ensures RowsPartition(w, n, RowsOf(w, n))
  {
    if n > 0 {
      RowsAreRanges(w, n - 1);
      RowStep(w, n - 1, RowsOf(w, n - 1));
    }
  }

  lemma RowStep(w: Walk, n: nat, before: seq<RowMeta>)
    requires n < |w| && RowsPartition(w, n, before) && |before| == RowTotal(w, n)
    ensures RowsPartition(w, n + 1, SeatedInRow(w, n, before))
  {
    var after, m := SeatedInRow(w, n, before), n + 1;
    RowStepEnds(w, n, before);
    forall k: nat | k < |after| ensures RowSound(w, m, after, k) { RowStepSound(w, n, before, k); }
    forall k: nat | k < |after| - 1 ensures RowsMeet(w, after, k) { RowStepMeets(w, n, before, k); }
  }

  lemma RowStepEnds(w: Walk, n: nat, before: seq<RowMeta>)
    requires n < |w| && RowsPartition(w, n, before) && |before| == RowTotal(w, n)
    ensures var after := SeatedInRow(w, n, before);
            |after| > 0 && after[0].firstSeat == 0 && after[|after| - 1].firstSeat + after[|after| - 1].seatCount == n + 1
  {
  }

  lemma RowStepSound(w: Walk, n: nat, before: seq<RowMeta>, k: nat)
    requires n < |w| && RowsPartition(w, n, before) && |before| == RowTotal(w, n) && k < |SeatedInRow(w, n, before)|
    ensures RowSound(w, n + 1, SeatedInRow(w, n, before), k)
  {
    if k < |before| { assert RowSound(w, n, before, k); }
    if n > 0 { assert RowSound(w, n, before, |before| - 1); }
  }

  lemma RowStepMeets(w: Walk, n: nat, before: seq<RowMeta>, k: nat)
    requires n < |w| && RowsPartition(w, n, before) && |before| == RowTotal(w, n) && k + 1 < |SeatedInRow(w, n, before)|
    ensures RowsMeet(w, SeatedInRow(w, n, before), k)
  {
    if k + 1 < |before| { assert RowsMeet(w, before, k); } else { assert RowSound(w, n, before, k); }
  }

  /** Row j is one of section k's rows, and its seats are among the section's seats. */
  ghost predicate Nested(ss: seq<SectionMeta>, rs: seq<RowMeta>, k: nat, j: nat)
    requires k < |ss| && j < |rs|
  {
    && rs[j].sectionIdx == k
    && ss[k].firstSeat <= rs[j].firstSeat && rs[j].firstSeat + rs[j].seatCount <= ss[k].firstSeat + ss[k].seatCount
  }

  lemma {:induction false} RowTotalGrows(w: Walk, m: nat, n: nat)
    requires m <= n <= |w|
    ensures RowTotal(w, m) <= RowTotal(w, n)
  {
    if m < n { RowTotalGrows(w, m, n - 1); }
  }

  /** Earlier sections end before later ones begin. */
  lemma {:induction false} SectionsInOrder(w: Walk, n: nat, ss: seq<SectionMeta>, k: nat, l: nat)
    requires n <= |w| && SectionsPartition(w, n, ss) && k < l < |ss|
    ensures ss[k].firstSeat + ss[k].seatCount <= ss[l].firstSeat
  {
    assert SectionsMeet(w, ss, l - 1) && SectionSound(w, n, ss, l - 1);
    if k + 1 < l { SectionsInOrder(w, n, ss, k, l - 1); }
  }

  lemma {:induction false} SectionOfSeat(w: Walk, n: nat, ss: seq<SectionMeta>, i: nat) returns (k: nat)
    requires n <= |w| && SectionsPartition(w, n, ss) && i < n
    ensures k < |ss| && ss[k].firstSeat <= i < ss[k].firstSeat + ss[k].seatCount
  {
    k := |ss| - 1;
    while i < ss[k].firstSeat
      invariant k < |ss| && i < ss[k].firstSeat + ss[k].seatCount
      decreases k
    {
      assert k > 0;
      assert SectionsMeet(w, ss, k - 1);
      k := k - 1;
    }
  }

  /** The row range of a section ends where its seats do. */
  lemma SectionRowsEnd(w: Walk, n: nat, ss: seq<SectionMeta>, k: nat)
    requires n <= |w| && SectionsPartition(w, n, ss) && k < |ss|
    ensures ss[k].firstSeat + ss[k].seatCount <= n
    ensures ss[k].firstRow == RowTotal(w, ss[k].firstSeat)
    ensures ss[k].firstRow + ss[k].rowCount == RowTotal(w, ss[k].firstSeat + ss[k].seatCount)
  {
    assert SectionSound(w, n, ss, k);
    if k + 1 < |ss| { assert SectionsMeet(w, ss, k) && SectionSound(w, n, ss, k + 1); }
  }

  lemma RowNests(w: Walk, n: nat, ss: seq<SectionMeta>, rs: seq<RowMeta>, j: nat) returns (k: nat)
    requires n <= |w| && RowsInOneSection(w) && SectionsPartition(w, n, ss) && RowsPartition(w, n, rs) && j < |rs|
    ensures k < |ss| && rs[j].sectionIdx == k && Nested(ss, rs, k, j)
    ensures ss[k].firstRow <= j < ss[k].firstRow + ss[k].rowCount
  {
    assert RowSound(w, n, rs, j);
    var f := rs[j].firstSeat;
    k := SectionOfSeat(w, n, ss, f);
    assert SectionSound(w, n, ss, k) && InSection(w, f, k);
    SectionRowsEnd(w, n, ss, k);
    var end := ss[k].firstSeat + ss[k].seatCount;
    RowTotalGrows(w, ss[k].firstSeat, f);
    RowTotalGrows(w, f + 1, end);
    forall i | f < i < f + rs[j].seatCount ensures !NewRow(w, i) { assert w[i].rowId == w[f].rowId && w[i - 1].rowId == w[f].rowId; }
    if k + 1 < |ss| {
      assert SectionsMeet(w, ss, k) && SectionSound(w, n, ss, k + 1);
      assert w[end - 1].sectionId == ss[k].sectionId && w[end].sectionId == ss[k + 1].sectionId;
      assert NewSection(w, end);
    }
  }

  /** Two sections' row ranges have no row in common. */
  lemma RowRangesApart(w: Walk, n: nat, ss: seq<SectionMeta>, k: nat, l: nat)
    requires n <= |w| && SectionsPartition(w, n, ss) && k < l < |ss|
    ensures ss[k].firstRow + ss[k].rowCount <= ss[l].firstRow
  {
    SectionRowsEnd(w, n, ss, k);
    SectionRowsEnd(w, n, ss, l);
    SectionsInOrder(w, n, ss, k, l);
    RowTotalGrows(w, ss[k].firstSeat + ss[k].seatCount, ss[l].firstSeat);
  }

  /** Row j is in section k's row range exactly when it is one of its rows. */
  ghost predicate RowRangeExact(ss: seq<SectionMeta>, rs: seq<RowMeta>, k: nat, j: nat)
    requires k < |ss| && j < |rs|
  {
    && (ss[k].firstRow <= j < ss[k].firstRow + ss[k].rowCount <==> rs[j].sectionIdx == k)
    && (rs[j].sectionIdx == k ==> Nested(ss, rs, k, j))
  }

  /** Rows nest in their section's row range, and nowhere else. */
  lemma RowsNest(w: Walk, n: nat, k: nat, j: nat)
    requires n <= |w| && RowsInOneSection(w) && k < |SectionsOf(w, n)| && j < |RowsOf(w, n)|
    ensures RowRangeExact(SectionsOf(w, n), RowsOf(w, n), k, j)
  {
    SectionsAreRanges(w, n);
    RowsAreRanges(w, n);
    RowsNestIn(w, n, SectionsOf(w, n), RowsOf(w, n), k, j);
  }

  lemma RowsNestIn(w: Walk, n: nat, ss: seq<SectionMeta>, rs: seq<RowMeta>, k: nat, j: nat)
    requires n <= |w| && RowsInOneSection(w) && SectionsPartition(w, n, ss) && RowsPartition(w, n, rs) && k < |ss|
        && j < |rs|
    ensures RowRangeExact(ss, rs, k, j)
  {
    var l := RowNests(w, n, ss, rs, j);
    if k < l { RowRangesApart(w, n, ss, k, l); } else if l < k { RowRangesApart(w, n, ss, l, k); }
  }

  // ---- Tiers ----

  /** The tiers in the order the walk first meets them. */
  function TiersOf(w: Walk, n: nat): seq<string>
    requires n <= |w|
  {
    if n == 0 then []
    else
      var before, tier := TiersOf(w, n - 1), w[n - 1].sectionTier;
      if tier in before then before else before + [tier]
  }

  ghost predicate TiersSound(w: Walk, n: nat, ts: seq<string>)
    requires n <= |w|
  {
    && (forall i, j | 0 <= i < j < |ts| :: ts[i] != ts[j])
    && (forall i | 0 <= i < n :: w[i].sectionTier in ts)
    && (forall j | 0 <= j < |ts| :: HasTier(w, n, ts[j]))
  }

  ghost predicate HasTier(w: Walk, n: nat, tier: string)
    requires n <= |w|
  {
    exists i :: 0 <= i < n && w[i].sectionTier == tier
  }

  lemma {:induction false} TiersAreSound(w: Walk, n: nat)
    requires n <= |w|
    ensures TiersSound(w, n, TiersOf(w, n))
  {
    if n > 0 {
      TiersAreSound(w, n - 1);
      var before, ts, tier := TiersOf(w, n - 1), TiersOf(w, n), w[n - 1].sectionTier;
      forall j | 0 <= j < |ts| ensures HasTier(w, n, ts[j]) {
        if j < |before| { assert HasTier(w, n - 1, before[j]); } else { assert w[n - 1].sectionTier == ts[j]; }
      }
    }
  }

  /** The first seat of tier j comes before any of tier k. */
  ghost predicate MetBefore(w: Walk, n: nat, ts: seq<string>, j: nat, k: nat)
    requires n <= |w| && j < |ts| && k < |ts|
  {
    exists i :: 0 <= i < n && w[i].sectionTier == ts[j] && forall h | 0 <= h <= i :: w[h].sectionTier != ts[k]
  }

  /** The tiers are listed in the order they are met. */
  lemma {:induction false} TiersInOrder(w: Walk, n: nat)
    requires n <= |w|
    ensures forall j, k | 0 <= j < k < |TiersOf(w, n)| :: MetBefore(w, n, TiersOf(w, n), j, k)
  {
    if n > 0 {
      var before, ts, tier := TiersOf(w, n - 1), TiersOf(w, n), w[n - 1].sectionTier;
      TiersInOrder(w, n - 1);
      TiersAreSound(w, n - 1);
      forall j, k | 0 <= j < k < |ts| ensures MetBefore(w, n, ts, j, k) {
        if k < |before| {
          assert MetBefore(w, n - 1, before, j, k);
          var i :| 0 <= i < n - 1 && w[i].sectionTier == before[j] && forall h | 0 <= h <= i :: w[h].sectionTier != before[k];
          assert w[i].sectionTier == ts[j];
        } else {
          assert HasTier(w, n - 1, before[j]);
          var i :| 0 <= i < n - 1 && w[i].sectionTier == before[j];
          assert w[i].sectionTier == ts[j] && forall h | 0 <= h <= i :: w[h].sectionTier in before;
        }
      }
    }
  }

  /** A seat's tier index: its tier's place in the first-met order, in eight bits. */
  ghost predicate TierIdx(ts: seq<string>, tier: string, idx: u8) {
    exists j :: 0 <= j < |ts| && ts[j] == tier && idx == j % 256
  }

  ghost predicate TierIndexes(w: Walk, n: nat, ts: seq<string>, idx: seq<u8>)
    requires n <= |w|
  {
    |idx| == n && forall i | 0 <= i < n :: TierIdx(ts, w[i].sectionTier, idx[i])
  }

  /** Every seat's index leads back to its tier. */
  ghost predicate TiersReadBack(w: Walk, n: nat, tiers: seq<string>, idx: seq<u8>)
    requires n <= |w| && |idx| == n
  {
    forall i | 0 <= i < n :: idx[i] < |tiers| && tiers[idx[i]] == w[i].sectionTier
  }

  lemma FewTiersReadBack(w: Walk, n: nat, idx: seq<u8>, ts: seq<string>)
    requires n <= |w| && TierIndexes(w, n, ts, idx) && |ts| <= 256
    ensures TiersReadBack(w, n, ts, idx)
  {
    forall i | 0 <= i < n ensures idx[i] < |ts| && ts[idx[i]] == w[i].sectionTier { assert TierIdx(ts, w[i].sectionTier, idx[i]); }
  }

  lemma TierIdxIs(ts: seq<string>, j: nat, idx: u8)
    requires j < |ts| && TierIdx(ts, ts[j], idx) && forall a, b | 0 <= a < b < |ts| :: ts[a] != ts[b]
    ensures idx == j % 256
  {
  }

  lemma ManyTiersCollide(w: Walk, n: nat, idx: seq<u8>, ts: seq<string>, tiers: seq<string>)
    requires n <= |w| && TierIndexes(w, n, ts, idx) && TiersSound(w, n, ts) && |ts| > 256
    ensures !TiersReadBack(w, n, tiers, idx)
  {
    assert HasTier(w, n, ts[0]) && HasTier(w, n, ts[256]);
    var a :| 0 <= a < n && w[a].sectionTier == ts[0];
    var b :| 0 <= b < n && w[b].sectionTier == ts[256];
    TierIdxIs(ts, 0, idx[a]);
    TierIdxIs(ts, 256, idx[b]);
    assert idx[a] == idx[b];
  }

  /** With the tiers in their first-met order the indexes lead back; beyond 256 tiers no
      list whatever makes them. */
  lemma TierIndexesReadBackIff(w: Walk, n: nat, idx: seq<u8>, tiers: seq<string>)
    requires n <= |w| && TierIndexes(w, n, TiersOf(w, n), idx)
    ensures |TiersOf(w, n)| <= 256 ==> TiersReadBack(w, n, TiersOf(w, n), idx)
    ensures |TiersOf(w, n)| > 256 ==> !TiersReadBack(w, n, tiers, idx)
  {
    TiersAreSound(w, n);
    if |TiersOf(w, n)| <= 256 { FewTiersReadBack(w, n, idx, TiersOf(w, n)); } else { ManyTiersCollide(w, n, idx, TiersOf(w, n), tiers); }
  }

  // ---- Bounds ----

  const FAR: int := 0x4000_0000
  const NOWHERE := Box(FAR, FAR, -FAR, -FAR)

  function Least(a: int, b: int): int {
    if b < a then b else a
  }

  function Greatest(a: int, b: int): int {
    if b > a then b else a
  }

  function Grown(b: Box, s: Seat): Box {
    Box(Least(b.minX, s.x), Least(b.minY, s.y), Greatest(b.maxX, s.x), Greatest(b.maxY, s.y))
  }

  predicate Inside(b: Box, s: Seat) {
    b.minX <= s.x <= b.maxX && b.minY <= s.y <= b.maxY
  }

  /** The tight bounds of the seats from lo up to hi: all inside, every side touched. */
  ghost predicate Tight(w: Walk, lo: nat, hi: nat, b: Box)
    requires lo <= hi <= |w|
  {
    && (forall i | lo <= i < hi :: Inside(b, w[i]))
    && (exists i :: lo <= i < hi && w[i].x == b.minX) && (exists i :: lo <= i < hi && w[i].x == b.maxX)
    && (exists i :: lo <= i < hi && w[i].y == b.minY) && (exists i :: lo <= i < hi && w[i].y == b.maxY)
  }

  lemma GrownIsTight(w: Walk, lo: nat, hi: nat, b: Box)
    requires lo <= hi < |w| && Tight(w, lo, hi, b)
    ensures Tight(w, lo, hi + 1, Grown(b, w[hi]))
  {
    var g := Grown(b, w[hi]);
    var x0 :| lo <= x0 < hi && w[x0].x == b.minX;
    var x1 :| lo <= x1 < hi && w[x1].x == b.maxX;
    var y0 :| lo <= y0 < hi && w[y0].y == b.minY;
    var y1 :| lo <= y1 < hi && w[y1].y == b.maxY;
    assert w[if w[hi].x < b.minX then hi else x0].x == g.minX && w[if w[hi].x > b.maxX then hi else x1].x == g.maxX;
    assert w[if w[hi].y < b.minY then hi else y0].y == g.minY && w[if w[hi].y > b.maxY then hi else y1].y == g.maxY;
  }

  /** The box of the first n seats, started from the first. */
  function BoxOf(w: Walk, n: nat): Box
    requires 0 < |w| && n <= |w|
  {
    if n == 0 then Box(w[0].x, w[0].y, w[0].x, w[0].y) else Grown(BoxOf(w, n - 1), w[n - 1])
  }

  lemma SingleIsTight(w: Walk, i: nat)
    requires i < |w|
    ensures Tight(w, i, i + 1, Box(w[i].x, w[i].y, w[i].x, w[i].y))
  {
    assert w[i].x == w[i].x && w[i].y == w[i].y;
  }

  lemma {:induction false} BoxIsTight(w: Walk, n: nat)
    requires 0 < n <= |w|
    ensures Tight(w, 0, n, BoxOf(w, n))
  {
    if n == 1 {
      SingleIsTight(w, 0);
      assert BoxOf(w, 1) == Grown(BoxOf(w, 0), w[0]) == BoxOf(w, 0);
    } else {
      BoxIsTight(w, n - 1);
      GrownIsTight(w, 0, n - 1, BoxOf(w, n - 1));
    }
  }

  /** The sections' boxes after the first n seats, each started from nowhere. */
  function BoxesOf(w: Walk, n: nat): (bs: seq<Box>)
    requires n <= |w|
    ensures |bs| == SectionTotal(w, n) && (n > 0 ==> |bs| > 0)
  {
    if n == 0 then [] else Boxed(w, n - 1, BoxesOf(w, n - 1))
  }

  /** Seat n taken into its section's box. */
  function Boxed(w: Walk, n: nat, before: seq<Box>): (after: seq<Box>)
    requires n < |w| && (n > 0 ==> |before| > 0)
    ensures |after| == |before| + if NewSection(w, n) then 1 else 0
  {
    if NewSection(w, n) then before + [Grown(NOWHERE, w[n])]
    else before[|before| - 1 := Grown(before[|before| - 1], w[n])]
  }

  /** What a box started from nowhere is after the seats from lo up to hi: all inside,
      and every side either where it started or touched. */
  ghost predicate Folded(w: Walk, lo: nat, hi: nat, b: Box)
    requires lo <= hi <= |w|
  {
    && (forall i | lo <= i < hi :: Inside(b, w[i]))
    && b.minX <= FAR && b.minY <= FAR && b.maxX >= -FAR && b.maxY >= -FAR
    && (b.minX == FAR || exists i :: lo <= i < hi && w[i].x == b.minX) && (b.maxX == -FAR || exists i :: lo <= i < hi && w[i].x == b.maxX)
    && (b.minY == FAR || exists i :: lo <= i < hi && w[i].y == b.minY) && (b.maxY == -FAR || exists i :: lo <= i < hi && w[i].y == b.maxY)
  }

  /** On each axis some seat is no further than the starting box on either side: the least
      coordinate is at most 2^30 and the greatest at least -2^30. */
  ghost predicate Near(w: Walk, lo: nat, hi: nat)
    requires lo <= hi <= |w|
  {
    && (exists i :: lo <= i < hi && w[i].x <= FAR) && (exists i :: lo <= i < hi && w[i].x >= -FAR)
    && (exists i :: lo <= i < hi && w[i].y <= FAR) && (exists i :: lo <= i < hi && w[i].y >= -FAR)
  }

  lemma {:induction false} FoldedIsTightIff(w: Walk, lo: nat, hi: nat, b: Box)
    requires lo <= hi <= |w| && Folded(w, lo, hi, b)
    ensures Tight(w, lo, hi, b) <==> Near(w, lo, hi)
  {
    if Near(w, lo, hi) {
      var x0 :| lo <= x0 < hi && w[x0].x <= FAR;
      var x1 :| lo <= x1 < hi && w[x1].x >= -FAR;
      var y0 :| lo <= y0 < hi && w[y0].y <= FAR;
      var y1 :| lo <= y1 < hi && w[y1].y >= -FAR;
      assert Inside(b, w[x0]) && Inside(b, w[x1]) && Inside(b, w[y0]) && Inside(b, w[y1]);
    }
  }

  lemma {:induction false} GrownIsFolded(w: Walk, lo: nat, hi: nat, b: Box)
    requires lo <= hi < |w| && Folded(w, lo, hi, b)
    ensures Folded(w, lo, hi + 1, Grown(b, w[hi]))
  {
    var g := Grown(b, w[hi]);
    assert g.minX == w[hi].x || g.minX == b.minX;
    assert g.maxX == w[hi].x || g.maxX == b.maxX;
    assert g.minY == w[hi].y || g.minY == b.minY;
    assert g.maxY == w[hi].y || g.maxY == b.maxY;
  }

  ghost predicate BoxFolded(w: Walk, ss: seq<SectionMeta>, bs: seq<Box>, k: nat)
    requires k < |ss| && k < |bs|
  {
    ss[k].firstSeat + ss[k].seatCount <= |w| && Folded(w, ss[k].firstSeat, ss[k].firstSeat + ss[k].seatCount, bs[k])
  }

  lemma {:induction false} SectionBoxesAreFolded(w: Walk, n: nat)
    requires n <= |w|
    ensures forall k: nat | k < SectionTotal(w, n) :: BoxFolded(w, SectionsOf(w, n), BoxesOf(w, n), k)
  {
    if n > 0 {
      SectionBoxesAreFolded(w, n - 1);
      SectionsAreRanges(w, n - 1);
      var ss, bs := SectionsOf(w, n - 1), BoxesOf(w, n - 1);
      forall k: nat | k < SectionTotal(w, n) ensures BoxFolded(w, SectionsOf(w, n), BoxesOf(w, n), k) { BoxStep(w, n - 1, ss, bs, k); }
    }
  }

  lemma {:induction false} BoxStep(w: Walk, n: nat, ss: seq<SectionMeta>, bs: seq<Box>, k: nat)
    requires n < |w| && SectionsPartition(w, n, ss) && |ss| == |bs| == SectionTotal(w, n) && k < |Seated(w, n, ss)|
    requires k < |ss| ==> BoxFolded(w, ss, bs, k)
    ensures BoxFolded(w, Seated(w, n, ss), Boxed(w, n, bs), k)
  {
    if NewSection(w, n) {
      if k == |ss| { GrownIsFolded(w, n, n, NOWHERE); }
    } else if k == |ss| - 1 {
      GrownIsFolded(w, ss[k].firstSeat, n, bs[k]);
    }
  }

  /** A section's box is the tight bounds of its own seats exactly when, on each axis, its
      least coordinate is at most 2^30 and its greatest at least -2^30. */
  lemma {:induction false} SectionBoxTightIff(w: Walk, k: nat)
    requires k < SectionTotal(w, |w|)
    ensures var m := SectionsOf(w, |w|)[k];
            m.firstSeat + m.seatCount <= |w|
            && (Tight(w, m.firstSeat, m.firstSeat + m.seatCount, BoxesOf(w, |w|)[k]) <==> Near(w, m.firstSeat, m.firstSeat + m.seatCount))
  {
    SectionBoxesAreFolded(w, |w|);
    assert BoxFolded(w, SectionsOf(w, |w|), BoxesOf(w, |w|), k);
    var m := SectionsOf(w, |w|)[k];
    FoldedIsTightIff(w, m.firstSeat, m.firstSeat + m.seatCount, BoxesOf(w, |w|)[k]);
  }

  /** A walk whose rectangle is wrong: one seat one step beyond. */
  lemma FarSeatMissesCorner(s: Seat)
    requires s.x == FAR + 1
    ensures SectionTotal([s], 1) == 1 && BoxesOf([s], 1)[0].minX == FAR && !Tight([s], 0, 1, BoxesOf([s], 1)[0])
  {
    assert SectionTotal([s], 0) == 0 && BoxesOf([s], 0) == [];
    assert BoxesOf([s], 1) == [Grown(NOWHERE, s)];
  }

  // ---- Seat numbers ----

  predicate Digit(c: char) {
    '0' <= c <= '9'
  }

  /** The number a string of digits writes. */
  function Number(digits: string): nat
    requires forall i | 0 <= i < |digits| :: Digit(digits[i])
  {
    if digits == [] then 0
    else
      assert Digit(digits[|digits| - 1]);
      Number(digits[..|digits| - 1]) * 10 + (digits[|digits| - 1] as int - '0' as int)
  }

  function SeatNumber(name: string, fallback: nat): u16 {
    if name != [] && forall i | 0 <= i < |name| :: Digit(name[i]) then Number(name) % 0x1_0000 else (fallback + 1) % 0x1_0000
  }

  /** A number written out in decimal. */
  function Written(n: nat): (s: string)
    ensures s != [] && forall i | 0 <= i < |s| :: Digit(s[i])
  {
    var digit := ['0' + (n % 10) as char];
    if n < 10 then digit else Written(n / 10) + digit
  }

  /** A seat labelled with its number gets that number, while it fits 16 bits. */
  lemma {:induction false} LabelReadsBack(n: nat, fallback: nat)
    ensures Number(Written(n)) == n && SeatNumber(Written(n), fallback) == n % 0x1_0000
  {
    if n >= 10 {
      LabelReadsBack(n / 10, fallback);
      assert Written(n)[..|Written(n)| - 1] == Written(n / 10);
    } else {
      assert Written(n)[..0] == [];
    }
  }

  lemma ModStep(a: nat, d: nat)
    ensures (a % 0x1_0000 * 10 + d) % 0x1_0000 == (a * 10 + d) % 0x1_0000
  {
  }

  method SeatLabelToNumber(name: string, fallback: nat) returns (n: u16)
    ensures n == SeatNumber(name, fallback)
    ensures (name == [] || exists i :: 0 <= i < |name| && !Digit(name[i])) ==> n == (fallback + 1) % 0x1_0000
  {
    n := 0;
    for i := 0 to |name|
      invariant forall j | 0 <= j < i :: Digit(name[j])
      invariant n == Number(name[..i]) % 0x1_0000
    {
      if name[i] < '0' || name[i] > '9' { return (fallback + 1) % 0x1_0000; }
      assert name[..i + 1][..i] == name[..i];
      ModStep(Number(name[..i]), name[i] as int - '0' as int);
      n := (n * 10 + (name[i] as int - '0' as int)) % 0x1_0000;
    }
    if |name| == 0 { return (fallback + 1) % 0x1_0000; }
    assert name[..|name|] == name;
  }

  // ---- The whole layout ----

  datatype LayoutMeta = LayoutMeta(layoutVersion: int, venueId: int, seatCount: nat, bbox: Box,
                                   sections: seq<SectionMeta>, polygons: seq<seq<int>>, rows: seq<RowMeta>, tiers: seq<string>)

  datatype Built = Built(meta: LayoutMeta, seatsBin: seq<u8>, seatId: seq<int>, tier: seq<string>, sectionClosed: seq<bool>)

  function Corner(p: seq<int>, j: nat): (int, int)
    requires |p| == 8 && j < 4
  {
    (p[2 * j], p[2 * j + 1])
  }

  /** Four corners, from the least to the greatest and back, each side of the polygon along
      one side of the box, the first along the least y. */
  predicate Outlines(p: seq<int>, b: Box) {
    && |p| == 8 && Corner(p, 0) == (b.minX, b.minY) && Corner(p, 2) == (b.maxX, b.maxY)
    && Corner(p, 0).1 == Corner(p, 1).1 && Corner(p, 1).0 == Corner(p, 2).0
    && Corner(p, 2).1 == Corner(p, 3).1 && Corner(p, 3).0 == Corner(p, 0).0
  }

  function Polygon(b: Box): (p: seq<int>)
    ensures Outlines(p, b)
  {
    [b.minX, b.minY, b.maxX, b.minY, b.maxX, b.maxY, b.minX, b.maxY]
  }

  datatype Columns = Columns(x: seq<int>, y: seq<int>, seatNumber: seq<u16>, tierIdx: seq<u8>,
                             seatId: seq<int>, tier: seq<string>, closed: seq<bool>)

  /** Entry i of every column is seat i's. */
  ghost predicate ColumnsOf(w: Walk, n: nat, c: Columns)
    requires n <= |w|
  {
    && |c.x| == |c.y| == |c.seatNumber| == |c.tierIdx| == |c.seatId| == |c.tier| == |c.closed| == n
    && TierIndexes(w, n, TiersOf(w, n), c.tierIdx)
    && forall i | 0 <= i < n ::
         && c.x[i] == SeatsBin.ToInt16(w[i].x) && c.y[i] == SeatsBin.ToInt16(w[i].y)
         && c.seatNumber[i] == SeatNumber(w[i].seatLabel, i)
         && c.seatId[i] == w[i].seatId && c.tier[i] == w[i].sectionTier && c.closed[i] == w[i].sectionClosed
  }

  /** The tier map: every tier met so far, with its place in eight bits. */
  ghost predicate TierMap(ts: seq<string>, m: map<string, u8>) {
    && (forall t :: t in m <==> t in ts) && |m| == |ts|
    && forall j | 0 <= j < |ts| :: m[ts[j]] == j % 256
  }

  lemma TierMapGrows(ts: seq<string>, m: map<string, u8>, tier: string)
    requires TierMap(ts, m) && tier !in ts && forall i, j | 0 <= i < j < |ts| :: ts[i] != ts[j]
    ensures TierMap(ts + [tier], m[tier := |m| % 256])
  {
    KeyAdded(m, tier, |m| % 256);
    TierPlacesKept(ts, m, tier, |m| % 256);
  }

  lemma KeyAdded(m: map<string, u8>, tier: string, at: u8)
    requires tier !in m
    ensures |m[tier := at]| == |m| + 1 && m[tier := at].Keys == m.Keys + {tier}
  {
    assert m[tier := at].Keys == m.Keys + {tier};
  }

  lemma TierPlacesKept(ts: seq<string>, m: map<string, u8>, tier: string, at: u8)
    requires tier !in ts && at == |ts| % 256
    requires forall j | 0 <= j < |ts| :: ts[j] in m && m[ts[j]] == j % 256
    ensures forall j | 0 <= j < |ts + [tier]| :: (ts + [tier])[j] in m[tier := at] && m[tier := at][(ts + [tier])[j]] == j % 256
  {
  }

  lemma TierIndexesGrow(w: Walk, n: nat, ts: seq<string>, idx: seq<u8>, ts': seq<string>, next: u8)
    requires n < |w| && TierIndexes(w, n, ts, idx) && ts <= ts' && TierIdx(ts', w[n].sectionTier, next)
    ensures TierIndexes(w, n + 1, ts', idx + [next])
  {
    forall i | 0 <= i < n ensures TierIdx(ts', w[i].sectionTier, idx[i]) {
      assert TierIdx(ts, w[i].sectionTier, idx[i]);
      var j :| 0 <= j < |ts| && ts[j] == w[i].sectionTier && idx[i] == j % 256;
      assert ts'[j] == ts[j];
    }
  }

  lemma ColumnsGrow(w: Walk, n: nat, c: Columns, next: u8)
    requires n < |w| && ColumnsOf(w, n, c) && TierIdx(TiersOf(w, n + 1), w[n].sectionTier, next)
    ensures ColumnsOf(w, n + 1,
                      Columns(c.x + [SeatsBin.ToInt16(w[n].x)], c.y + [SeatsBin.ToInt16(w[n].y)],
                              c.seatNumber + [SeatNumber(w[n].seatLabel, n)], c.tierIdx + [next],
                              c.seatId + [w[n].seatId], c.tier + [w[n].sectionTier], c.closed + [w[n].sectionClosed]))
  {
    TierIndexesGrow(w, n, TiersOf(w, n), c.tierIdx, TiersOf(w, n + 1), next);
  }

  lemma MapIndexes(ts: seq<string>, m: map<string, u8>, tier: string)
    requires TierMap(ts, m) && tier in ts
    ensures TierIdx(ts, tier, m[tier])
  {
    var j :| 0 <= j < |ts| && ts[j] == tier;
  }

  /** The walk's sections and rows. */
  method WalkRanges(w: Walk) returns (sections: seq<SectionMeta>, rows: seq<RowMeta>)
    requires w != [] ==> w[0].sectionId != -1 && w[0].rowId != -1
    ensures sections == SectionsOf(w, |w|) && rows == RowsOf(w, |w|)
  {
    sections, rows := [], [];
    var curSection, curRow := -1, -1;
    for ord := 0 to |w|
      invariant sections == SectionsOf(w, ord) && rows == RowsOf(w, ord)
      invariant if ord == 0 then curSection == -1 && curRow == -1 else curSection == w[ord - 1].sectionId && curRow == w[ord - 1].rowId
    {
      sections, rows := TakeSeat(w, ord, curSection, curRow, sections, rows);
      curSection, curRow := w[ord].sectionId, w[ord].rowId;
    }
  }

  /** One seat's turn. */
  method TakeSeat(w: Walk, ord: nat, curSection: int, curRow: int, ss: seq<SectionMeta>, rs: seq<RowMeta>)
    returns (sections: seq<SectionMeta>, rows: seq<RowMeta>)
    requires ord < |w| && |ss| == SectionTotal(w, ord) && |rs| == RowTotal(w, ord) && (ord > 0 ==> |ss| > 0 && |rs| > 0)
    requires w[ord].sectionId != curSection <==> NewSection(w, ord)
    requires w[ord].rowId != curRow <==> NewRow(w, ord)
    ensures sections == Seated(w, ord, ss) && rows == SeatedInRow(w, ord, rs)
  {
    var r := w[ord];
    sections, rows := ss, rs;
    var sectionIdx, rowIdx := |ss| - 1, |rs| - 1;
    if r.sectionId != curSection {
      sectionIdx := sectionIdx + 1;
      sections := sections + [SectionMeta(sectionIdx, r.sectionId, r.sectionName, r.sectionTier, rowIdx + 1, 0, ord, 0)];
    }
    assert sections == WithSection(w, ord, ss);
    if r.rowId != curRow {
      rowIdx := rowIdx + 1;
      rows := rows + [RowMeta(rowIdx, sectionIdx, r.rowLabel, ord, 0)];
    }
    assert rows == WithRow(w, ord, rs);
    var section := sections[sectionIdx];
    sections := sections[sectionIdx := section.(rowCount := rowIdx + 1 - section.firstRow, seatCount := section.seatCount + 1)];
    rows := rows[rowIdx := rows[rowIdx].(seatCount := rows[rowIdx].seatCount + 1)];
  }

  /** The walk's columns and tiers. */
  method WalkColumns(w: Walk) returns (c: Columns, tierOrder: map<string, u8>)
    ensures ColumnsOf(w, |w|, c) && TierMap(TiersOf(w, |w|), tierOrder)
  {
    c := Columns([], [], [], [], [], [], []);
    tierOrder := map[];
    for ord := 0 to |w|
      invariant ColumnsOf(w, ord, c) && TierMap(TiersOf(w, ord), tierOrder)
    {
      tierOrder := TakeTier(w, ord, tierOrder);
      c := Appended(w, ord, c, tierOrder[w[ord].sectionTier]);
    }
  }

  /** The walk's bounds. */
  method WalkBox(w: Walk) returns (bbox: Box)
    requires w != []
    ensures bbox == BoxOf(w, |w|)
  {
    bbox := Box(w[0].x, w[0].y, w[0].x, w[0].y);
    for ord := 0 to |w|
      invariant bbox == BoxOf(w, ord)
    {
      bbox := Stretch(bbox, w[ord]);
    }
  }

  method Appended(w: Walk, ord: nat, c: Columns, idx: u8) returns (after: Columns)
    requires ord < |w| && ColumnsOf(w, ord, c) && TierIdx(TiersOf(w, ord + 1), w[ord].sectionTier, idx)
    ensures ColumnsOf(w, ord + 1, after)
  {
    var r := w[ord];
    var number := SeatLabelToNumber(r.seatLabel, ord);
    ColumnsGrow(w, ord, c, idx);
    after := Columns(c.x + [SeatsBin.ToInt16(r.x)], c.y + [SeatsBin.ToInt16(r.y)], c.seatNumber + [number],
                     c.tierIdx + [idx], c.seatId + [r.seatId], c.tier + [r.sectionTier], c.closed + [r.sectionClosed]);
  }

  method TakeTier(w: Walk, ord: nat, before: map<string, u8>) returns (tierOrder: map<string, u8>)
    requires ord < |w| && TierMap(TiersOf(w, ord), before)
    ensures var tier := w[ord].sectionTier;
            TierMap(TiersOf(w, ord + 1), tierOrder) && tier in tierOrder
                && TierIdx(TiersOf(w, ord + 1), tier, tierOrder[tier])
  {
    tierOrder := before;
    var tier := w[ord].sectionTier;
    TiersAreSound(w, ord);
    if tier !in tierOrder {
      TierMapGrows(TiersOf(w, ord), before, tier);
      tierOrder := tierOrder[tier := |tierOrder| % 256];
    }
    MapIndexes(TiersOf(w, ord + 1), tierOrder, tier);
  }

  method Stretch(b: Box, s: Seat) returns (g: Box)
    ensures g == Grown(b, s)
  {
    g := b;
    if s.x < g.minX { g := g.(minX := s.x); }
    if s.x > g.maxX { g := g.(maxX := s.x); }
    if s.y < g.minY { g := g.(minY := s.y); }
    if s.y > g.maxY { g := g.(maxY := s.y); }
  }

  /** The second walk: every section's own bounds. */
  method WalkBoxes(w: Walk, sections: nat) returns (boxes: seq<Box>)
    requires sections == SectionTotal(w, |w|) && (w != [] ==> w[0].sectionId != -1)
    ensures boxes == BoxesOf(w, |w|)
  {
    boxes := seq(sections, _ => NOWHERE);
    var si, curSection := -1, -1;
    for n := 0 to |w|
      invariant |boxes| == sections && si == SectionTotal(w, n) - 1 && si < sections
          && curSection == (if n == 0 then -1 else w[n - 1].sectionId)
      invariant boxes[..si + 1] == BoxesOf(w, n)
      invariant forall k | si < k < sections :: boxes[k] == NOWHERE
    {
      SectionTotalGrows(w, n + 1, |w|);
      if w[n].sectionId != curSection {
        curSection := w[n].sectionId;
        si := si + 1;
      }
      var grown := Stretch(boxes[si], w[n]);
      boxes := boxes[si := grown];
    }
  }

  lemma {:induction false} SectionTotalGrows(w: Walk, m: nat, n: nat)
    requires m <= n <= |w|
    ensures SectionTotal(w, m) <= SectionTotal(w, n)
  {
    if m < n { SectionTotalGrows(w, m, n - 1); }
  }

  /** The tier list from the tier map, whatever order the map is walked in. */
  method ListTiers(tierOrder: map<string, u8>, ghost ts: seq<string>) returns (tiers: seq<string>)
    requires TierMap(ts, tierOrder)
    ensures |tiers| == |ts| && (|ts| <= 256 ==> tiers == ts)
  {
    tiers := seq(|tierOrder|, _ => "");
    var left := tierOrder.Keys;
    while left != {}
      invariant left <= tierOrder.Keys && |tiers| == |ts|
      invariant |ts| <= 256 ==> forall j | 0 <= j < |ts| && ts[j] !in left :: tiers[j] == ts[j]
      decreases left
    {
      var tier :| tier in left;
      ghost var at :| 0 <= at < |ts| && ts[at] == tier;
      assert tierOrder[tier] == at % 256;
      tiers := tiers[tierOrder[tier] := tier];
      left := left - {tier};
    }
  }

  method BuildLayout(venueId: int, layoutVersion: int, w: Walk) returns (r: Option<Built>, ghost c: Columns)
    requires w != [] ==> w[0].sectionId != -1 && w[0].rowId != -1
    ensures r.None? <==> w == []
    ensures r.Some? ==>
              var n, b := |w|, r.value;
              && b.meta.layoutVersion == layoutVersion && b.meta.venueId == venueId && b.meta.seatCount == n
              && b.meta.sections == SectionsOf(w, n) && b.meta.rows == RowsOf(w, n) && b.meta.bbox == BoxOf(w, n)
              && |b.meta.polygons| == |BoxesOf(w, n)|
              && (forall k | 0 <= k < |b.meta.polygons| :: Outlines(b.meta.polygons[k], BoxesOf(w, n)[k]))
              && ColumnsOf(w, n, c) && b.seatId == c.seatId && b.tier == c.tier && b.sectionClosed == c.closed
              && b.seatsBin == SeatsBin.Encoded(c.x, c.y, c.seatNumber, c.tierIdx, layoutVersion % 0x1_0000)
              && |b.meta.tiers| == |TiersOf(w, n)|
                  && (TiersReadBack(w, n, b.meta.tiers, c.tierIdx) <==> |TiersOf(w, n)| <= 256)
  {
    c := Columns([], [], [], [], [], [], []);
    if w == [] { return None, c; }
    var sections, rows := WalkRanges(w);
    var cols, tierOrder := WalkColumns(w);
    var bbox := WalkBox(w);
    c := cols;
    var boxes := WalkBoxes(w, |sections|);
    var polygons := seq(|boxes|, k requires 0 <= k < |boxes| => Polygon(boxes[k]));
    var tiers := ListTiers(tierOrder, TiersOf(w, |w|));
    TierIndexesReadBackIff(w, |w|, cols.tierIdx, tiers);
    var bin := SeatsBin.EncodeSeatsBin(cols.x, cols.y, cols.seatNumber, cols.tierIdx, layoutVersion % 0x1_0000);
    r := Some(Built(LayoutMeta(layoutVersion, venueId, |w|, bbox, sections, polygons, rows, tiers), bin, cols.seatId, cols.tier, cols.closed));
  }
}
