/** The per-event read model kept in Redis: the packed bitset, the sequence
    counter and the capped ring of encoded deltas, and the single frame that
    brings a reconnecting client up to date. */
module ReadModel {
  import opened Bytes
  import opened Wrappers
  import opened Seatmap
  import opened Wsproto

  const RING_CAP := 200

  /** Redis INCR works on a signed 64-bit integer and refuses to overflow it. */
  const MAX_SEQ: u64 := 0x7fff_ffff_ffff_ffff

  datatype Delta = Delta(ordinal: nat, state: State)

  /** ring is newest first, the order LPUSH leaves it in. */
  datatype Cache = Cache(bits: seq<u8>, seqNo: u64, ring: seq<seq<u8>>)

  datatype ApplyOutcome = Unchanged | Changed | SeqOverflow

  /** Ordinals are dense in 0..seats-1, so every one has a lane and fits 30 bits. */
  predicate InRange(bits: seq<u8>, ordinal: nat) {
    ordinal / 4 < |bits| && ordinal < 0x4000_0000
  }

  function ToChange(d: Delta): Change
    requires d.ordinal < 0x4000_0000
  {
    Change(d.ordinal, d.state)
  }

  function Trimmed(ring: seq<seq<u8>>): seq<seq<u8>> {
    if |ring| <= RING_CAP then ring else ring[..RING_CAP]
  }

  /** The counter bumped and the delta pushed; a counter that cannot be bumped is left alone. */
  function Pushed(c: Cache, ch: Change): (r: (Cache, ApplyOutcome)) {
    if c.seqNo >= MAX_SEQ then (c, SeqOverflow)
    else (Cache(c.bits, c.seqNo + 1, Trimmed([SparseBytes(c.seqNo + 1, [ch])] + c.ring)), Changed)
  }

  /** One state transition: nothing when the bitset already shows it; otherwise
      the byte is rewritten, the counter bumped and the delta pushed. A counter
      that cannot be bumped leaves the byte written. */
  function Applied(c: Cache, d: Delta): (r: (Cache, ApplyOutcome))
    requires InRange(c.bits, d.ordinal)
    ensures |r.0.bits| == |c.bits|
  {
    if Get(c.bits, d.ordinal) == d.state then (c, Unchanged)
    else Pushed(c.(bits := Write(c.bits, d.ordinal, d.state)), ToChange(d))
  }

  // ---- What a client does with changes ----

  predicate ChangesInRange(bits: seq<u8>, cs: seq<Change>) {
    forall i | 0 <= i < |cs| :: InRange(bits, cs[i].ordinal) && cs[i].state < 4
  }

  predicate DeltasInRange(bits: seq<u8>, log: seq<Delta>) {
    forall i | 0 <= i < |log| :: InRange(bits, log[i].ordinal)
  }

  /** Apply changes to a bitset, first to last. */
  function WriteAll(bits: seq<u8>, cs: seq<Change>): (r: seq<u8>)
    requires ChangesInRange(bits, cs)
    ensures |r| == |bits|
  {
    if cs == [] then bits
    else Write(WriteAll(bits, cs[..|cs| - 1]), cs[|cs| - 1].ordinal, cs[|cs| - 1].state)
  }

  /** The state the last change to an ordinal gave it, if any did. */
  function LastState(cs: seq<Change>, ordinal: nat): Option<u8> {
    if cs == [] then None
    else if cs[|cs| - 1].ordinal == ordinal then Some(cs[|cs| - 1].state)
    else LastState(cs[..|cs| - 1], ordinal)
  }

  /** A bitset after changes shows, per seat, the last change or the old state. */
  lemma {:induction false} WriteAllShowsLast(bits: seq<u8>, cs: seq<Change>, o: nat)
    requires ChangesInRange(bits, cs) && o / 4 < |bits|
    ensures LastState(cs, o).Some? ==> LastState(cs, o).value < 4
    ensures Get(WriteAll(bits, cs), o) == if LastState(cs, o).Some? then LastState(cs, o).value else Get(bits, o)
  {
    if cs != [] {
      var init, last := cs[..|cs| - 1], cs[|cs| - 1];
      WriteAllShowsLast(bits, init, o);
      WriteGet(WriteAll(bits, init), last.ordinal, last.state, o);
    }
  }

  // ---- Coalescing: one change per ordinal, in order of first appearance ----

  function IndexOf(cs: seq<Change>, ordinal: nat): (i: nat)
    ensures i <= |cs|
    ensures i < |cs| ==> cs[i].ordinal == ordinal
    ensures i == |cs| ==> forall c | c in cs :: c.ordinal != ordinal
  {
    if cs == [] then 0 else if cs[0].ordinal == ordinal then 0 else 1 + IndexOf(cs[1..], ordinal)
  }

  function Coalesced(cs: seq<Change>): (r: seq<Change>)
    ensures |r| <= |cs|
  {
    if cs == [] then []
    else
      var init, last := cs[..|cs| - 1], cs[|cs| - 1];
      var r := Coalesced(init);
      var i := IndexOf(r, last.ordinal);
      if i < |r| then r[i := last] else r + [last]
  }

  predicate DistinctOrdinals(cs: seq<Change>) {
    forall i, j | 0 <= i < j < |cs| :: cs[i].ordinal != cs[j].ordinal
  }

  lemma {:induction false} CoalescedDistinct(cs: seq<Change>)
    ensures DistinctOrdinals(Coalesced(cs))
  {
    if cs != [] { CoalescedDistinct(cs[..|cs| - 1]); }
  }

  /** Every coalesced change is one of the originals. */
  lemma {:induction false} CoalescedFrom(cs: seq<Change>)
    ensures forall c | c in Coalesced(cs) :: c in cs
  {
    if cs != [] {
      var init := cs[..|cs| - 1];
      CoalescedFrom(init);
      forall c | c in Coalesced(cs) ensures c in cs {
        assert c == cs[|cs| - 1] || c in Coalesced(init);
      }
    }
  }

  /** With one change per ordinal, the last change to an ordinal is the one there is. */
  lemma {:induction false} LastStateDistinct(cs: seq<Change>, i: nat)
    requires DistinctOrdinals(cs) && i < |cs|
    ensures LastState(cs, cs[i].ordinal) == Some(cs[i].state)
  {
    if i < |cs| - 1 { LastStateDistinct(cs[..|cs| - 1], i); }
  }

  lemma {:induction false} CoalescedLast(cs: seq<Change>, o: nat)
    ensures LastState(Coalesced(cs), o) == LastState(cs, o)
  {
    if cs != [] {
      var init, last := cs[..|cs| - 1], cs[|cs| - 1];
      var r := Coalesced(init);
      var i := IndexOf(r, last.ordinal);
      CoalescedLast(init, o);
      if i < |r| {
        CoalescedDistinct(init);
        CoalescedDistinct(cs);
        if o == last.ordinal {
          LastStateDistinct(r[i := last], i);
        } else {
          ReplaceOther(r, i, last, o);
        }
      } else {
        assert (r + [last])[..|r|] == r;
      }
    }
  }

  lemma {:induction false} ReplaceOther(cs: seq<Change>, i: nat, c: Change, o: nat)
    requires i < |cs| && cs[i].ordinal == c.ordinal != o
    ensures LastState(cs[i := c], o) == LastState(cs, o)
  {
    var k := |cs| - 1;
    if i < k {
      assert cs[i := c][..k] == cs[..k][i := c];
      ReplaceOther(cs[..k], i, c, o);
    } else {
      assert cs[i := c][..k] == cs[..k];
    }
  }

  /** Coalescing keeps the effect: the folded changes write the same bitset. */
  lemma CoalescedWritesSame(bits: seq<u8>, cs: seq<Change>)
    requires ChangesInRange(bits, cs)
    ensures ChangesInRange(bits, Coalesced(cs))
    ensures WriteAll(bits, Coalesced(cs)) == WriteAll(bits, cs)
  {
    CoalescedFrom(cs);
    forall i | 0 <= i < |Coalesced(cs)|
      ensures InRange(bits, Coalesced(cs)[i].ordinal) && Coalesced(cs)[i].state < 4
    {
      assert Coalesced(cs)[i] in cs;
    }
    var p, q := WriteAll(bits, Coalesced(cs)), WriteAll(bits, cs);
    forall o: nat | o < 4 * |p| ensures Get(p, o) == Get(q, o) {
      WriteAllShowsLast(bits, Coalesced(cs), o);
      WriteAllShowsLast(bits, cs, o);
      CoalescedLast(cs, o);
    }
    SameSeatsSameBytes(p, q);
  }

  // ---- The frame that fills a gap ----

  datatype Fill = CaughtUp | Combined(frame: seq<u8>) | Resync

  function DecodeAll(ring: seq<seq<u8>>): Result<seq<Frame>, ProtoError> {
    if ring == [] then Ok([])
    else match DecodeAll(ring[..|ring| - 1])
      case Err(e) => Err(e)
      case Ok(fs) =>
        match Decoded(ring[|ring| - 1])
        case Err(e) => Err(e)
        case Ok(f) => Ok(fs + [f])
  }

  function Newer(fs: seq<Frame>, since: u64): seq<Frame> {
    if fs == [] then []
    else
      var init, last := Newer(fs[..|fs| - 1], since), fs[|fs| - 1];
      if last.seqNo > since then init + [last] else init
  }

  function ChangesOf(f: Frame): seq<Change> {
    if f.Sparse? then f.changes else []
  }

  /** All changes of newest-first frames, oldest frame first. */
  function OldestFirst(fs: seq<Frame>): seq<Change> {
    if fs == [] then [] else OldestFirst(fs[1..]) + ChangesOf(fs[0])
  }

  /** The changes to send, or why none are: the ring may not reach back far enough. */
  datatype Plan = Send(changes: seq<Change>) | Lost

  function Planned(fs: seq<Frame>, since: u64): Plan {
    var wanted := Newer(fs, since);
    if wanted == [] then Lost
    else if wanted[|wanted| - 1].seqNo != since + 1 then Lost
    else Send(Coalesced(OldestFirst(wanted)))
  }

  function GapFilled(c: Cache, since: u64): Result<Fill, ProtoError> {
    if since >= c.seqNo then Ok(CaughtUp)
    else match DecodeAll(c.ring)
      case Err(e) => Err(e)
      case Ok(fs) =>
        match Planned(fs, since)
        case Send(cs) => Ok(Combined(SparseBytes(c.seqNo, cs)))
        case _ => Ok(Resync)
  }

  // ---- Every cache reached from a seed by applying deltas ----

  function Replayed(bits: seq<u8>, log: seq<Delta>): (r: seq<u8>)
    requires DeltasInRange(bits, log)
    ensures |r| == |bits|
  {
    if log == [] then bits
    else Write(Replayed(bits, log[..|log| - 1]), log[|log| - 1].ordinal, log[|log| - 1].state)
  }

  /** The encoded deltas of a log, newest first. */
  function Entries(log: seq<Delta>): (es: seq<seq<u8>>)
    requires |log| <= MAX_SEQ && forall k | 0 <= k < |log| :: log[k].ordinal < 0x4000_0000
    ensures |es| == |log|
  {
    if log == [] then []
    else [SparseBytes(|log|, [ToChange(log[|log| - 1])])] + Entries(log[..|log| - 1])
  }

  function AtMost(n: nat, cap: nat): nat {
    if n <= cap then n else cap
  }

  /** log is the deltas that changed the bitset since it was seeded as base. */
  ghost predicate Tracks(c: Cache, base: seq<u8>, log: seq<Delta>) {
    && DeltasInRange(base, log) && |log| <= MAX_SEQ
    && c.seqNo == |log|
    && c.bits == Replayed(base, log)
    && c.ring == Entries(log)[..AtMost(|log|, RING_CAP)]
  }

  /** The deltas, among those offered, that change the bitset. */
  function Effective(base: seq<u8>, offered: seq<Delta>): (log: seq<Delta>)
    requires DeltasInRange(base, offered)
    ensures DeltasInRange(base, log) && |log| <= |offered|
  {
    if offered == [] then []
    else
      var log, d := Effective(base, offered[..|offered| - 1]), offered[|offered| - 1];
      if Get(Replayed(base, log), d.ordinal) == d.state then log else log + [d]
  }

  /** The cache after a seed and any sequence of transitions. */
  function Reached(base: seq<u8>, offered: seq<Delta>): (c: Cache)
    requires DeltasInRange(base, offered)
    ensures |c.bits| == |base|
  {
    if offered == [] then Cache(base, 0, [])
    else Applied(Reached(base, offered[..|offered| - 1]), offered[|offered| - 1]).0
  }

  lemma PushedPrefix<T>(x: T, s: seq<T>, cap: nat)
    requires cap > 0
    ensures var pushed := [x] + s[..AtMost(|s|, cap)];
            pushed[..AtMost(|pushed|, cap)] == ([x] + s)[..AtMost(|s| + 1, cap)]
  {
  }

  lemma ReplayedSnoc(base: seq<u8>, log: seq<Delta>, d: Delta)
    requires DeltasInRange(base, log) && InRange(base, d.ordinal)
    ensures Replayed(base, log + [d]) == Write(Replayed(base, log), d.ordinal, d.state)
  {
    assert (log + [d])[..|log|] == log;
  }

  lemma AppliedTracks(c: Cache, base: seq<u8>, log: seq<Delta>, d: Delta)
    requires Tracks(c, base, log) && InRange(base, d.ordinal) && c.seqNo < MAX_SEQ
    ensures Tracks(Applied(c, d).0, base, if Get(c.bits, d.ordinal) == d.state then log else log + [d])
    ensures Applied(c, d).1 == if Get(c.bits, d.ordinal) == d.state then Unchanged else Changed
  {
    if Get(c.bits, d.ordinal) != d.state {
      assert (log + [d])[..|log|] == log;
      PushedPrefix(SparseBytes(|log| + 1, [ToChange(d)]), Entries(log), RING_CAP);
      ReplayedSnoc(base, log, d);
    }
  }

  lemma {:induction false} ReachedTracks(base: seq<u8>, offered: seq<Delta>)
    requires DeltasInRange(base, offered)
    requires |offered| <= MAX_SEQ
    ensures Tracks(Reached(base, offered), base, Effective(base, offered))
  {
    if offered != [] {
      var init := offered[..|offered| - 1];
      ReachedTracks(base, init);
      AppliedTracks(Reached(base, init), base, Effective(base, init), offered[|offered| - 1]);
    }
  }

  // ---- The gap-fill theorem ----

  /** Frame i of a tracked ring carries the i-th newest delta and its sequence number. */
  ghost predicate FramesOf(fs: seq<Frame>, log: seq<Delta>) {
    && |fs| <= |log| <= MAX_SEQ
    && (forall k | 0 <= k < |log| :: log[k].ordinal < 0x4000_0000)
    && forall i | 0 <= i < |fs| :: fs[i] == FrameAt(log, i)
  }

  function FrameAt(log: seq<Delta>, i: nat): Frame
    requires i < |log| <= MAX_SEQ && log[|log| - 1 - i].ordinal < 0x4000_0000
  {
    Sparse(|log| - i, [ToChange(log[|log| - 1 - i])])
  }

  function FramesFor(log: seq<Delta>, n: nat): (fs: seq<Frame>)
    requires n <= |log| <= MAX_SEQ && forall k | 0 <= k < |log| :: log[k].ordinal < 0x4000_0000
    ensures |fs| == n && FramesOf(fs, log)
  {
    seq(n, i requires 0 <= i < n => FrameAt(log, i))
  }

  lemma {:induction false} EntryAt(log: seq<Delta>, i: nat)
    requires i < |log| <= MAX_SEQ && forall k | 0 <= k < |log| :: log[k].ordinal < 0x4000_0000
    ensures Entries(log)[i] == SparseBytes(|log| - i, [ToChange(log[|log| - 1 - i])])
  {
    if i > 0 {
      var init := log[..|log| - 1];
      EntryAt(init, i - 1);
      assert init[|init| - 1 - (i - 1)] == log[|log| - 1 - i];
    }
  }

  lemma EntryDecodes(log: seq<Delta>, i: nat)
    requires i < |log| <= MAX_SEQ && forall k | 0 <= k < |log| :: log[k].ordinal < 0x4000_0000
    ensures Decoded(Entries(log)[i]) == Ok(FrameAt(log, i))
  {
    EntryAt(log, i);
    var cs := [ToChange(log[|log| - 1 - i])];
    assert forall c | c in cs :: c == cs[0];
    SparseExact(|log| - i, cs);
  }

  lemma {:induction false} DecodeAllPointwise(ring: seq<seq<u8>>, fs: seq<Frame>)
    requires |ring| == |fs| && forall i | 0 <= i < |ring| :: Decoded(ring[i]) == Ok(fs[i])
    ensures DecodeAll(ring) == Ok(fs)
  {
    if ring != [] {
      var last := |ring| - 1;
      DecodeAllPointwise(ring[..last], fs[..last]);
      assert fs == fs[..last] + [fs[last]];
    }
  }

  lemma RingDecodes(log: seq<Delta>, n: nat)
    requires n <= |log| <= MAX_SEQ && forall k | 0 <= k < |log| :: log[k].ordinal < 0x4000_0000
    ensures DecodeAll(Entries(log)[..n]) == Ok(FramesFor(log, n))
  {
    forall i | 0 <= i < n ensures Decoded(Entries(log)[..n][i]) == Ok(FramesFor(log, n)[i]) {
      EntryDecodes(log, i);
    }
    DecodeAllPointwise(Entries(log)[..n], FramesFor(log, n));
  }

  predicate CountsDown(fs: seq<Frame>, top: nat) {
    forall i | 0 <= i < |fs| :: fs[i].seqNo == top - i
  }

  /** The frames above since are a prefix of the newest-first list. */
  lemma {:induction false} NewerIsPrefix(fs: seq<Frame>, top: nat, since: u64)
    requires CountsDown(fs, top) && since <= top
    ensures Newer(fs, since) == fs[..AtMost(|fs|, top - since)]
  {
    if fs != [] {
      var last, init := |fs| - 1, fs[..|fs| - 1];
      NewerIsPrefix(init, top, since);
      if |fs| <= top - since {
        assert init[..|init|] + [fs[last]] == fs;
      } else {
        assert init[..top - since] == fs[..top - since];
      }
    }
  }

  function ToChanges(log: seq<Delta>): (cs: seq<Change>)
    requires forall i | 0 <= i < |log| :: log[i].ordinal < 0x4000_0000
    ensures |cs| == |log|
    ensures forall i | 0 <= i < |log| :: cs[i] == ToChange(log[i])
  {
    seq(|log|, i requires 0 <= i < |log| => ToChange(log[i]))
  }

  /** fs holds the changes of cs one by one, newest first. */
  predicate OneEach(fs: seq<Frame>, cs: seq<Change>) {
    |fs| == |cs| && forall i | 0 <= i < |fs| :: ChangesOf(fs[i]) == [cs[|cs| - 1 - i]]
  }

  lemma {:induction false} FramesFold(fs: seq<Frame>, cs: seq<Change>)
    requires OneEach(fs, cs)
    ensures OldestFirst(fs) == cs
  {
    if fs != [] {
      var init := cs[..|cs| - 1];
      assert OneEach(fs[1..], init);
      FramesFold(fs[1..], init);
      assert cs == init + [cs[|cs| - 1]];
    }
  }

  lemma FramesForShape(log: seq<Delta>, kept: nat, n: nat)
    requires n <= kept <= |log| <= MAX_SEQ && forall k | 0 <= k < |log| :: log[k].ordinal < 0x4000_0000
    ensures CountsDown(FramesFor(log, kept), |log|)
    ensures OneEach(FramesFor(log, kept)[..n], ToChanges(log[|log| - n..]))
  {
  }

  /** The changes of a log from k on end with its last delta. */
  lemma SuffixSnoc(log: seq<Delta>, k: nat)
    requires k < |log| && forall i | 0 <= i < |log| :: log[i].ordinal < 0x4000_0000
    ensures var init := log[..|log| - 1];
            init[..k] == log[..k] && ToChanges(log[k..]) == ToChanges(init[k..]) + [ToChange(log[|log| - 1])]
  {
  }

  lemma WriteAllSnoc(bits: seq<u8>, cs: seq<Change>, c: Change)
    requires ChangesInRange(bits, cs) && InRange(bits, c.ordinal) && c.state < 4
    ensures ChangesInRange(bits, cs + [c])
    ensures WriteAll(bits, cs + [c]) == Write(WriteAll(bits, cs), c.ordinal, c.state)
  {
    assert (cs + [c])[..|cs|] == cs;
  }

  lemma {:induction false} ReplaySplits(base: seq<u8>, log: seq<Delta>, k: nat)
    requires DeltasInRange(base, log)
    requires k <= |log|
    ensures ChangesInRange(base, ToChanges(log[k..]))
    ensures Replayed(base, log) == WriteAll(Replayed(base, log[..k]), ToChanges(log[k..]))
  {
    if k == |log| {
      assert log[..k] == log;
    } else {
      var init, d := log[..|log| - 1], log[|log| - 1];
      ReplaySplits(base, init, k);
      SuffixSnoc(log, k);
      WriteAllSnoc(Replayed(base, log[..k]), ToChanges(init[k..]), ToChange(d));
    }
  }

  /** What the frame answering since must be. */
  ghost predicate Bridges(frame: seq<u8>, before: seq<u8>, after: seq<u8>, seqNo: u64) {
    && Decoded(frame).Ok? && Decoded(frame).value.Sparse?
    && Decoded(frame).value.seqNo == seqNo
    && ChangesInRange(before, Decoded(frame).value.changes)
    && DistinctOrdinals(Decoded(frame).value.changes)
    && WriteAll(before, Decoded(frame).value.changes) == after
  }

  /** A gap of at most the ring's capacity is answered by one frame that turns the
      bitset of that time into the current one; a longer gap by a resync. */
  lemma GapFillBridges(c: Cache, base: seq<u8>, log: seq<Delta>, since: u64)
    requires Tracks(c, base, log)
    ensures GapFilled(c, since).Ok?
    ensures GapFilled(c, since).value.CaughtUp? <==> since >= c.seqNo
    ensures GapFilled(c, since).value.Combined? <==> since < c.seqNo <= since + RING_CAP
    ensures GapFilled(c, since).value.Combined? ==>
              Bridges(GapFilled(c, since).value.frame, Replayed(base, log[..since]), c.bits, c.seqNo)
  {
    if since < c.seqNo {
      RingPlans(c.ring, log, since);
      if |log| <= since + RING_CAP {
        ReplaySplits(base, log, since);
        CombinedBridges(Replayed(base, log[..since]), ToChanges(log[since..]), c.seqNo);
      }
    }
  }

  lemma RingPlans(ring: seq<seq<u8>>, log: seq<Delta>, since: u64)
    requires since < |log| <= MAX_SEQ && forall k | 0 <= k < |log| :: log[k].ordinal < 0x4000_0000
    requires ring == Entries(log)[..AtMost(|log|, RING_CAP)]
    ensures DecodeAll(ring).Ok?
    ensures Planned(DecodeAll(ring).value, since)
            == if |log| <= since + RING_CAP then Send(Coalesced(ToChanges(log[since..]))) else Lost
  {
    RingDecodes(log, AtMost(|log|, RING_CAP));
    FramesPlan(log, AtMost(|log|, RING_CAP), since);
  }

  /** With the newest kept frames of a log at hand. */
  lemma FramesPlan(log: seq<Delta>, kept: nat, since: u64)
    requires since < |log| <= MAX_SEQ && kept <= |log| && forall k | 0 <= k < |log| :: log[k].ordinal < 0x4000_0000
    ensures Planned(FramesFor(log, kept), since)
            == if |log| <= since + kept then Send(Coalesced(ToChanges(log[since..]))) else Lost
  {
    var n := AtMost(|log| - since, kept);
    FramesForShape(log, kept, n);
    PlanFills(FramesFor(log, kept), |log|, since, ToChanges(log[|log| - n..]));
  }

  /** The newest frames bridge a gap exactly when they reach its first missing delta. */
  lemma PlanFills(fs: seq<Frame>, top: nat, since: u64, cs: seq<Change>)
    requires CountsDown(fs, top) && since < top
    requires OneEach(fs[..AtMost(top - since, |fs|)], cs)
    ensures Planned(fs, since) == if top - since <= |fs| then Send(Coalesced(cs)) else Lost
  {
    NewerIsPrefix(fs, top, since);
    FramesFold(fs[..AtMost(top - since, |fs|)], cs);
  }

  lemma CombinedBridges(before: seq<u8>, cs: seq<Change>, seqNo: u64)
    requires ChangesInRange(before, cs) && |cs| <= RING_CAP
    ensures Bridges(SparseBytes(seqNo, Coalesced(cs)), before, WriteAll(before, cs), seqNo)
  {
    CoalescedWritesSame(before, cs);
    CoalescedDistinct(cs);
    SparseExact(seqNo, Coalesced(cs));
  }

  /** The same for every history: whatever was offered to the cache since the seed,
      a client that saw sequence number since holds Replayed(base, log[..since]). */
  lemma EveryGapFills(base: seq<u8>, offered: seq<Delta>, since: u64)
    requires DeltasInRange(base, offered)
    requires |offered| <= MAX_SEQ
    ensures var c, log := Reached(base, offered), Effective(base, offered);
            && c.seqNo == |log| && c.bits == Replayed(base, log)
            && GapFilled(c, since).Ok?
            && (GapFilled(c, since).value.CaughtUp? <==> since >= |log|)
            && (GapFilled(c, since).value.Combined? <==> since < |log| <= since + RING_CAP)
            && (GapFilled(c, since).value.Combined? ==>
                  Bridges(GapFilled(c, since).value.frame, Replayed(base, log[..since]), c.bits, c.seqNo))
  {
    ReachedTracks(base, offered);
    GapFillBridges(Reached(base, offered), base, Effective(base, offered), since);
  }

  /** The state the last transition offered to a seat gives it. */
  function LastOffered(offered: seq<Delta>, o: nat): Option<State> {
    if offered == [] then None
    else if offered[|offered| - 1].ordinal == o then Some(offered[|offered| - 1].state)
    else LastOffered(offered[..|offered| - 1], o)
  }

  function ShownAfter(base: seq<u8>, offered: seq<Delta>, o: nat): State
    requires o / 4 < |base|
  {
    match LastOffered(offered, o)
    case Some(state) => state
    case None => Get(base, o)
  }

  /** Seat by seat, the bitset shows the last transition offered. */
  lemma {:induction false} ReachedShowsLast(base: seq<u8>, offered: seq<Delta>, o: nat)
    requires DeltasInRange(base, offered)
    requires o / 4 < |base|
    ensures Get(Reached(base, offered).bits, o) == ShownAfter(base, offered, o)
  {
    if offered != [] {
      var init, d := offered[..|offered| - 1], offered[|offered| - 1];
      ReachedShowsLast(base, init, o);
      WriteGet(Reached(base, init).bits, d.ordinal, d.state, o);
    }
  }

  /** Two sequences of transitions lead to the same bitset exactly when the last one of
      every seat agrees. */
  lemma SameBitsIff(base: seq<u8>, xs: seq<Delta>, ys: seq<Delta>)
    requires DeltasInRange(base, xs) && DeltasInRange(base, ys)
    ensures Reached(base, xs).bits == Reached(base, ys).bits
            <==> forall o: nat | o / 4 < |base| :: ShownAfter(base, xs, o) == ShownAfter(base, ys, o)
  {
    var p, q := Reached(base, xs).bits, Reached(base, ys).bits;
    forall o: nat | o / 4 < |base|
      ensures Get(p, o) == ShownAfter(base, xs, o) && Get(q, o) == ShownAfter(base, ys, o)
    {
      ReachedShowsLast(base, xs, o);
      ReachedShowsLast(base, ys, o);
    }
    if forall o: nat | o / 4 < |base| :: ShownAfter(base, xs, o) == ShownAfter(base, ys, o) {
      SameSeatsSameBytes(p, q);
    }
  }

  lemma {:induction false} LastOfferedAppend(xs: seq<Delta>, ys: seq<Delta>, o: nat)
    ensures LastOffered(xs + ys, o) == if LastOffered(ys, o).Some? then LastOffered(ys, o) else LastOffered(xs, o)
  {
    if ys == [] {
      assert xs + ys == xs;
    } else {
      var init := ys[..|ys| - 1];
      assert (xs + ys)[..|xs + ys| - 1] == xs + init;
      LastOfferedAppend(xs, init, o);
    }
  }

  lemma {:induction false} LastOfferedSome(xs: seq<Delta>, o: nat)
    ensures LastOffered(xs, o).Some? <==> exists i :: 0 <= i < |xs| && xs[i].ordinal == o
  {
    if xs != [] {
      var init := xs[..|xs| - 1];
      LastOfferedSome(init, o);
      if xs[|xs| - 1].ordinal != o {
        if i :| 0 <= i < |xs| && xs[i].ordinal == o { assert init[i].ordinal == o; }
        if i :| 0 <= i < |init| && init[i].ordinal == o { assert xs[i].ordinal == o; }
      }
    }
  }

  // ---- What a failed mark does ----

  /** The transitions of a batch at the given places. */
  function Picked(batch: seq<Delta>, places: seq<nat>): (r: seq<Delta>)
    requires forall n | 0 <= n < |places| :: places[n] < |batch|
    ensures |r| == |places| && forall n | 0 <= n < |r| :: r[n] == batch[places[n]]
  {
    seq(|places|, n requires 0 <= n < |places| => batch[places[n]])
  }

  /** The unmarked rows of a batch are applied again in a later pass. The bitset stays as
      it is exactly when, for every seat of the pass, the last row retried has the state
      of the last row of the batch. */
  lemma ReplayHarmlessIff(base: seq<u8>, batch: seq<Delta>, unmarked: seq<nat>)
    requires DeltasInRange(base, batch) && forall n | 0 <= n < |unmarked| :: unmarked[n] < |batch|
    ensures var retried := Picked(batch, unmarked);
            DeltasInRange(base, batch + retried)
            && (Reached(base, batch + retried).bits == Reached(base, batch).bits
                <==> forall n | 0 <= n < |retried| :: LastOffered(retried, retried[n].ordinal) == LastOffered(batch, retried[n].ordinal))
  {
    var retried := Picked(batch, unmarked);
    SameBitsIff(base, batch + retried, batch);
    forall o: nat | o / 4 < |base|
      ensures ShownAfter(base, batch + retried, o) == ShownAfter(base, batch, o)
              <==> LastOffered(retried, o).None? || LastOffered(retried, o) == LastOffered(batch, o)
    {
      LastOfferedAppend(batch, retried, o);
      RetriedOffered(batch, unmarked, o);
    }
    forall o: nat ensures LastOffered(retried, o).Some? <==> exists n :: 0 <= n < |retried| && retried[n].ordinal == o {
      LastOfferedSome(retried, o);
    }
    assert forall n | 0 <= n < |retried| :: InRange(base, retried[n].ordinal);
  }

  lemma RetriedOffered(batch: seq<Delta>, places: seq<nat>, o: nat)
    requires forall n | 0 <= n < |places| :: places[n] < |batch|
    ensures LastOffered(Picked(batch, places), o).Some? ==> LastOffered(batch, o).Some?
  {
    var r := Picked(batch, places);
    LastOfferedSome(r, o);
    LastOfferedSome(batch, o);
    if n :| 0 <= n < |r| && r[n].ordinal == o { assert batch[places[n]].ordinal == o; }
  }
}
