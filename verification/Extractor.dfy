/** The incremental pull: pages of the tracker's listing applied and checkpointed one
    transaction at a time, resumable after a spent budget, an error or a crash, while
    the tracker keeps changing. */
module Extractor {
  import opened Sets
  import opened Wrappers
  import opened MockJira
  import opened Twoway

  /** next_cursor is set while a run is in flight; run_since and run_max belong to it. */
  datatype SyncState = SyncState(watermark: Option<Time>, runSince: Option<Time>, nextCursor: Option<Position>, runMax: Option<Time>)

  const NO_STATE := SyncState(None, None, None, None)

  /** The zero time, before any issue was written. */
  const ZERO: Time := 0

  // ---- What goes on meanwhile ----

  /** One write to the tracker, at its time, or one delivery of a webhook. */
  datatype Happening =
    | Created(at: Time, summary: string, status: string, description: string)
    | Edited(at: Time, id: string, patch: Patch)
    | Removed(at: Time, id: string)
    | Hook(issue: Issue, newId: nat)

  /** Writes carry strictly increasing times. */
  predicate Ordered(hs: seq<Happening>, from: Time)
    decreases hs
  {
    hs != [] ==> if hs[0].Hook? then Ordered(hs[1..], from) else hs[0].at > from && Ordered(hs[1..], hs[0].at)
  }

  /** The tracker, and when it was last written to. */
  datatype Tracker = Tracker(issues: Issues, nextIssue: nat, latest: Time)

  function Happened(tr: Tracker, h: Happening): Tracker {
    match h
    case Created(at, summary, status, description) =>
      var i := Issue(IssueId(tr.nextIssue + 1), summary, status, description, 1, false, at);
      Tracker(tr.issues[i.id := i], tr.nextIssue + 1, at)
    case Edited(at, id, patch) =>
      Tracker(if id in tr.issues then tr.issues[id := Changed(tr.issues[id], patch, at)] else tr.issues, tr.nextIssue,
              at)
    case Removed(at, id) =>
      Tracker(if id in tr.issues then tr.issues[id := DeletedAt(tr.issues[id], at)] else tr.issues, tr.nextIssue, at)
    case Hook(_, _) => tr
  }

  function AllHappened(tr: Tracker, hs: seq<Happening>): Tracker
    decreases hs
  {
    if hs == [] then tr else AllHappened(Happened(tr, hs[0]), hs[1..])
  }

  /** Issues are only added or rewritten, each rewriting later than everything before and
      of a higher version. */
  ghost predicate Evolves(issues: Issues, at: Time, issues': Issues, at': Time) {
    && at <= at' && issues.Keys <= issues'.Keys
    && forall id | id in issues' ::
         || (id in issues && issues'[id] == issues[id])
         || (at < issues'[id].updatedAt <= at' && (id in issues ==> issues'[id].version > issues[id].version))
  }

  ghost predicate Timed(issues: Issues, latest: Time) {
    ById(issues) && ZERO <= latest && forall id | id in issues :: ZERO <= issues[id].updatedAt <= latest
  }

  ghost predicate Grows(links: map<string, Link>, links': map<string, Link>) {
    forall id | id in links :: id in links' && links'[id].version >= links[id].version
  }

  /** The recorded version has reached the issue's. */
  predicate Caught(links: map<string, Link>, i: Issue) {
    i.id in links && links[i.id].version >= i.version
  }

  ghost predicate AllRecorded(links: map<string, Link>, issues: Issues) {
    forall id | id in issues :: Caught(links, issues[id])
  }

  // ---- What a checkpoint means ----

  predicate NotBefore(a: Option<Time>, b: Option<Time>) {
    a.Some? ==> b.Some? && a.value <= b.value
  }

  predicate Covers(r: Option<Time>, i: Issue) {
    r.Some? && i.updatedAt <= r.value
  }

  predicate NotAfter(a: Option<Time>, latest: Time) {
    a.Some? ==> a.value <= latest
  }

  ghost predicate CaughtUpTo(issues: Issues, links: map<string, Link>, watermark: Option<Time>) {
    forall id | id in issues && watermark.Some? && issues[id].updatedAt <= watermark.value :: Caught(links, issues[id])
  }

  /** Whatever is not recorded yet is still ahead of the cursor. */
  ghost predicate Ahead(issues: Issues, links: map<string, Link>, since: Time, cursor: Option<Position>) {
    forall id | id in issues :: Caught(links, issues[id]) || Matches(issues[id], since, cursor)
  }

  /** Whatever is not ahead of the cursor has been seen: the time r covers it. */
  ghost predicate Seen(issues: Issues, since: Time, cursor: Option<Position>, r: Option<Time>) {
    forall id | id in issues :: Covers(r, issues[id]) || Matches(issues[id], since, cursor)
  }

  /** Some issue was written at this time or has been since. */
  ghost predicate Witnessed(issues: Issues, r: Option<Time>) {
    r.Some? ==> exists id :: id in issues && r.value <= issues[id].updatedAt
  }

  /** The time of the newest issue of all; none of no issue. */
  ghost predicate IsNewest(issues: Issues, r: Option<Time>) {
    && (r.None? <==> issues == map[])
    && (forall id | id in issues :: Covers(r, issues[id]))
    && (r.Some? ==> exists id :: id in issues && issues[id].updatedAt == r.value)
  }

  ghost predicate Underway(issues: Issues, links: map<string, Link>, latest: Time,
                           watermark: Option<Time>, since: Time, cursor: Option<Position>, runMax: Option<Time>) {
    && Ahead(issues, links, since, cursor) && Seen(issues, since, cursor, runMax) && Witnessed(issues, runMax)
    && since <= latest && NotBefore(watermark, runMax) && NotAfter(runMax, latest)
    && (cursor.Some? ==> cursor.value.at <= latest)
  }

  ghost predicate GoodState(issues: Issues, links: map<string, Link>, latest: Time, s: SyncState) {
    Witnessed(issues, s.watermark) &&
    if s.nextCursor == None then CaughtUpTo(issues, links, s.watermark) && NotAfter(s.watermark, latest)
    else s.runSince.Some? && Underway(issues, links, latest, s.watermark, s.runSince.value, s.nextCursor, s.runMax)
  }

  // ---- A page between its fetch and its commit ----

  /** A page of an earlier store: what is not recorded is on it, beyond it, or has been
      written since it was fetched at fetchedAt. */
  ghost predicate OnPage(issues: Issues, links: map<string, Link>, page: Page, since: Time, fetchedAt: Time) {
    forall id | id in issues ::
      Caught(links, issues[id]) || issues[id] in page.issues || issues[id].updatedAt > fetchedAt
      || (page.next.Some? && Matches(issues[id], since, page.next))
  }

  /** What has not been seen by time r lies beyond the page, and r is a time it was seen. */
  ghost predicate SeenOn(issues: Issues, page: Page, since: Time, r: Option<Time>) {
    && Witnessed(issues, r)
    && forall id | id in issues :: Covers(r, issues[id]) || (page.next.Some? && Matches(issues[id], since, page.next))
  }

  /** A page whose issues r covers: seen on it, or beyond it. */
  lemma FetchedSeen(issues: Issues, since: Time, cursor: Option<Position>, limit: int, page: Page,
                    runMax: Option<Time>, r: Option<Time>)
    requires IsPage(issues, since, cursor, limit, page) && Seen(issues, since, cursor, runMax)
    requires NotBefore(runMax, r) && Witnessed(issues, r)
    requires forall k | 0 <= k < |page.issues| :: Covers(r, page.issues[k])
    ensures SeenOn(issues, page, since, r)
  {
  }

  /** On the last page there is nothing beyond. */
  lemma LastPageNewest(issues: Issues, page: Page, since: Time, r: Option<Time>)
    requires SeenOn(issues, page, since, r) && page.next.None?
    ensures IsNewest(issues, r)
  {
  }

  lemma EvolvedSeen(issues: Issues, page: Page, since: Time, r: Option<Time>, at: Time, issues': Issues, at': Time)
    requires SeenOn(issues, page, since, r) && since <= at && Evolves(issues, at, issues', at')
    requires page.next.Some? && page.next.value.at <= at
    ensures Seen(issues', since, page.next, r)
  {
  }

  lemma EvolvedWitness(issues: Issues, r: Option<Time>, at: Time, issues': Issues, at': Time)
    requires Timed(issues, at) && Witnessed(issues, r) && Evolves(issues, at, issues', at')
    ensures Witnessed(issues', r)
  {
    if r.Some? {
      var id :| id in issues && r.value <= issues[id].updatedAt;
      assert id in issues' && r.value <= issues'[id].updatedAt;
    }
  }

  lemma FetchedPage(issues: Issues, links: map<string, Link>, since: Time, cursor: Option<Position>, limit: int,
                    page: Page, latest: Time)
    requires IsPage(issues, since, cursor, limit, page) && Ahead(issues, links, since, cursor)
    ensures OnPage(issues, links, page, since, latest)
  {
  }

  lemma EvolvedPage(issues: Issues, links: map<string, Link>, page: Page, since: Time, fetchedAt: Time,
                    at: Time, issues': Issues, at': Time, links': map<string, Link>)
    requires OnPage(issues, links, page, since, fetchedAt) && ById(issues) && ById(issues')
    requires fetchedAt <= at && Evolves(issues, at, issues', at') && Grows(links, links')
    ensures OnPage(issues', links', page, since, fetchedAt)
  {
  }

  lemma EvolvedAhead(issues: Issues, links: map<string, Link>, latest: Time, watermark: Option<Time>, since: Time,
                     cursor: Option<Position>, runMax: Option<Time>, issues': Issues, latest': Time, links': map<string, Link>)
    requires Underway(issues, links, latest, watermark, since, cursor, runMax) && ById(issues) && ById(issues')
    requires Evolves(issues, latest, issues', latest') && Grows(links, links')
    ensures Underway(issues', links', latest', watermark, since, cursor, runMax)
  {
  }

  lemma EvolvedState(issues: Issues, links: map<string, Link>, latest: Time, s: SyncState, issues': Issues,
                     latest': Time, links': map<string, Link>)
    requires GoodState(issues, links, latest, s) && ById(issues) && ById(issues')
    requires Evolves(issues, latest, issues', latest') && Grows(links, links')
    ensures GoodState(issues', links', latest', s)
  {
    if s.nextCursor.Some? { EvolvedAhead(issues, links, latest, s.watermark, s.runSince.value, s.nextCursor, s.runMax, issues', latest', links'); }
  }

  lemma EvolvesOn(a: Issues, at: Time, b: Issues, bt: Time, c: Issues, ct: Time)
    requires Evolves(a, at, b, bt) && Evolves(b, bt, c, ct)
    ensures Evolves(a, at, c, ct)
  {
  }

  /** One issue written, at a later time and with a higher version if it was there. */
  lemma WriteEvolves(issues: Issues, latest: Time, i: Issue)
    requires Timed(issues, latest) && i.updatedAt > latest && (i.id in issues ==> i.version > issues[i.id].version)
    ensures Timed(issues[i.id := i], i.updatedAt) && Evolves(issues, latest, issues[i.id := i], i.updatedAt)
  {
  }

  lemma StillNumbered(issues: Issues, created: nat, i: Issue)
    requires Numbered(issues, created) && i.id in issues
    ensures Numbered(issues[i.id := i], created)
  {
  }

  lemma HappenedEvolves(tr: Tracker, h: Happening)
    requires Timed(tr.issues, tr.latest) && Numbered(tr.issues, tr.nextIssue) && (h.Hook? || h.at > tr.latest)
    ensures var tr' := Happened(tr, h);
            && Timed(tr'.issues, tr'.latest) && Numbered(tr'.issues, tr'.nextIssue)
            && Evolves(tr.issues, tr.latest, tr'.issues, tr'.latest)
  {
    match h
    case Created(at, summary, status, description) =>
      var i := Issue(IssueId(tr.nextIssue + 1), summary, status, description, 1, false, at);
      NextIdIsNew(tr.issues, tr.nextIssue, i);
      WriteEvolves(tr.issues, tr.latest, i);
    case Edited(at, id, patch) => if id in tr.issues { RewriteEvolves(tr, Changed(tr.issues[id], patch, at)); }
    case Removed(at, id) => if id in tr.issues { RewriteEvolves(tr, DeletedAt(tr.issues[id], at)); }
    case Hook(_, _) =>
  }

  lemma RewriteEvolves(tr: Tracker, i: Issue)
    requires Timed(tr.issues, tr.latest) && Numbered(tr.issues, tr.nextIssue) && i.updatedAt > tr.latest
    requires i.id in tr.issues && i.version > tr.issues[i.id].version
    ensures Timed(tr.issues[i.id := i], i.updatedAt) && Numbered(tr.issues[i.id := i], tr.nextIssue)
    ensures Evolves(tr.issues, tr.latest, tr.issues[i.id := i], i.updatedAt)
  {
    WriteEvolves(tr.issues, tr.latest, i);
    StillNumbered(tr.issues, tr.nextIssue, i);
  }

  lemma {:induction false} AllHappenedEvolves(tr: Tracker, hs: seq<Happening>)
    requires Timed(tr.issues, tr.latest) && Numbered(tr.issues, tr.nextIssue) && Ordered(hs, tr.latest)
    ensures var tr' := AllHappened(tr, hs);
        Timed(tr'.issues, tr'.latest) && Numbered(tr'.issues, tr'.nextIssue) && Evolves(tr.issues, tr.latest, tr'.issues, tr'.latest)
    decreases hs
  {
    if hs != [] {
      var next, end := Happened(tr, hs[0]), AllHappened(tr, hs);
      HappenedEvolves(tr, hs[0]);
      AllHappenedEvolves(next, hs[1..]);
      EvolvesOn(tr.issues, tr.latest, next.issues, next.latest, end.issues, end.latest);
    }
  }

  ghost predicate AllCaught(links: map<string, Link>, issues: seq<Issue>) {
    forall k | 0 <= k < |issues| :: Caught(links, issues[k])
  }

  /** Committing a page: everything on it is recorded and the cursor moves to its end. */
  lemma CommittedPage(issues: Issues, latest: Time, links: map<string, Link>, page: Page, since: Time,
                      fetchedAt: Time, runMax: Option<Time>)
    requires OnPage(issues, links, page, since, fetchedAt) && AllCaught(links, page.issues)
    requires since <= fetchedAt <= latest && NotAfter(runMax, fetchedAt) && Timed(issues, latest)
    requires page.next.Some? ==> page.next.value.at <= fetchedAt
    ensures page.next.Some? ==> Ahead(issues, links, since, page.next)
    ensures page.next.None? ==> CaughtUpTo(issues, links, runMax)
  {
  }

  /** From the fetch of a page to its commit, with the tracker changing in between. */
  lemma PageDone(fetched: Issues, links: map<string, Link>, fetchedAt: Time, page: Page, since: Time,
                 runMax: Option<Time>, watermark: Option<Time>,
                 issues: Issues, latest: Time, links': map<string, Link>)
    requires Timed(fetched, fetchedAt) && Timed(issues, latest) && OnPage(fetched, links, page, since, fetchedAt)
    requires Evolves(fetched, fetchedAt, issues, latest) && Grows(links, links') && AllCaught(links', page.issues)
    requires since <= fetchedAt && NotBefore(watermark, runMax) && NotAfter(runMax, fetchedAt)
    requires page.next.Some? ==> page.next.value.at <= fetchedAt
    requires SeenOn(fetched, page, since, runMax)
    ensures page.next.Some? ==> Underway(issues, links', latest, watermark, since, page.next, runMax)
    ensures page.next.None? ==> CaughtUpTo(issues, links', runMax) && NotAfter(runMax, latest) && Witnessed(issues, runMax)
    ensures page.next.None? ==> AllRecorded(links', fetched) && IsNewest(fetched, runMax)
  {
    EvolvedWitness(fetched, runMax, fetchedAt, issues, latest);
    if page.next.Some? { EvolvedSeen(fetched, page, since, runMax, fetchedAt, issues, latest); }
    else { LastPageNewest(fetched, page, since, runMax); }
    EvolvedPage(fetched, links, page, since, fetchedAt, fetchedAt, issues, latest, links');
    CommittedPage(issues, latest, links', page, since, fetchedAt, runMax);
  }

  lemma InboundGrows(system: string, o: Ownership, t: Tables, src: Source, i: Issue, newId: nat)
    ensures Grows(t.links, Inbound(system, o, t, src, i, newId).0.links)
  {
    forall id | id in t.links { VersionRecorded(system, o, t, src, i, newId, id); }
  }

  function PollOf(system: string, o: Ownership, t: Tables, i: Issue, newId: nat): Tables {
    Inbound(system, o, t, Poll, i, newId).0
  }

  /** The tables after polling the issues of a page in order, from issue k on. */
  function Polled(system: string, o: Ownership, t: Tables, issues: seq<Issue>, k: nat, newId: nat): Tables
    decreases |issues| - k
  {
    if k >= |issues| then t else Polled(system, o, PollOf(system, o, t, issues[k], newId + k), issues, k + 1, newId)
  }

  ghost predicate AllCaughtFrom(links: map<string, Link>, issues: seq<Issue>, k: nat) {
    forall j | k <= j < |issues| :: Caught(links, issues[j])
  }

  /** Polling a page brings every issue on it up to date and takes none back. */
  lemma {:induction false} PolledCatches(system: string, o: Ownership, t: Tables, issues: seq<Issue>, k: nat,
                                         newId: nat)
    ensures var links := Polled(system, o, t, issues, k, newId).links;
        Grows(t.links, links) && AllCaughtFrom(links, issues, k)
    decreases |issues| - k
  {
    if k < |issues| {
      var next := PollOf(system, o, t, issues[k], newId + k);
      OnePolled(system, o, t, issues[k], newId + k);
      PolledCatches(system, o, next, issues, k + 1, newId);
      CaughtOnward(t.links, next.links, Polled(system, o, t, issues, k, newId).links, issues, k);
    }
  }

  lemma OnePolled(system: string, o: Ownership, t: Tables, i: Issue, newId: nat)
    ensures var links := PollOf(system, o, t, i, newId).links; Grows(t.links, links) && Caught(links, i)
  {
    InboundGrows(system, o, t, Poll, i, newId);
    VersionRecorded(system, o, t, Poll, i, newId, i.id);
  }

  lemma CaughtOnward(before: map<string, Link>, links: map<string, Link>, links': map<string, Link>,
                     issues: seq<Issue>, k: nat)
    requires k < |issues| && Grows(before, links) && Grows(links, links')
    requires Caught(links, issues[k]) && AllCaughtFrom(links', issues, k + 1)
    ensures Grows(before, links') && AllCaughtFrom(links', issues, k)
  {
  }

  function Checkpoint(prior: SyncState, since: Time, next: Option<Position>, runMax: Option<Time>): SyncState {
    if next.None? then SyncState(runMax, None, None, None)
    else SyncState(prior.watermark, Some(since), next, runMax)
  }

  // ---- The run ----

  /** One turn of the loop as the outside world decides it: the clock readings, what
      happens before the listing and between the listing and the transaction, whether
      either fails, and the first of the item ids minted. */
  datatype Turn = Turn(checkedAt: int, startedAt: int, endedAt: int, before: seq<Happening>, during: seq<Happening>,
                       listFails: bool, commitFails: bool, newId: nat)

  /** From turn n on, every write is later than all before it. */
  predicate OrderedTurns(turns: seq<Turn>, n: nat, tr: Tracker)
    decreases |turns| - n
  {
    n < |turns| ==>
      && Ordered(turns[n].before, tr.latest)
      && var mid := AllHappened(tr, turns[n].before);
         Ordered(turns[n].during, mid.latest) && OrderedTurns(turns, n + 1, AllHappened(mid, turns[n].during))
  }

  /** The tracker after one whole turn. */
  function Turned(tr: Tracker, turn: Turn): Tracker {
    AllHappened(AllHappened(tr, turn.before), turn.during)
  }

  /** The tracker after n whole turns, and at the fetch of the turn that follows them. */
  function AfterTurns(tr: Tracker, turns: seq<Turn>, n: nat): Tracker
    requires n <= |turns|
  {
    if n == 0 then tr else Turned(AfterTurns(tr, turns, n - 1), turns[n - 1])
  }

  function AtFetch(tr: Tracker, turns: seq<Turn>, n: nat): Tracker
    requires n < |turns|
  {
    AllHappened(AfterTurns(tr, turns, n), turns[n].before)
  }

  /** Turns in order stay so from any of them on. */
  lemma {:induction false} OrderedFrom(tr: Tracker, turns: seq<Turn>, n: nat)
    requires OrderedTurns(turns, 0, tr) && n <= |turns|
    ensures OrderedTurns(turns, n, AfterTurns(tr, turns, n))
  {
    if n > 0 { OrderedFrom(tr, turns, n - 1); }
  }

  function Slower(slowest: int, turn: Turn): int {
    if slowest < turn.endedAt - turn.startedAt then turn.endedAt - turn.startedAt else slowest
  }

  /** How long the slowest of the first n pages took. */
  function SlowestBefore(turns: seq<Turn>, n: nat): int
    requires n <= |turns|
  {
    if n == 0 then 0 else Slower(SlowestBefore(turns, n - 1), turns[n - 1])
  }

  /** Turn n begins before the deadline, with time for a page as slow as any before. */
  predicate InTime(turns: seq<Turn>, n: nat, deadline: int)
    requires n < |turns|
  {
    turns[n].checkedAt < deadline && SlowestBefore(turns, n) <= deadline - turns[n].checkedAt
  }

  predicate Fails(turn: Turn) {
    turn.listFails || turn.commitFails
  }

  /** Nobody writes and no webhook arrives. */
  predicate Still(turns: seq<Turn>) {
    forall n | 0 <= n < |turns| :: turns[n].before == [] && turns[n].during == []
  }

  /** Nothing fails either, and there is always time for another page. */
  predicate Quiet(turns: seq<Turn>, deadline: int) {
    Still(turns) && forall n: nat | n < |turns| :: !Fails(turns[n]) && InTime(turns, n, deadline)
  }

  /** The issues a listing has yet to return. */
  function Beyond(issues: Issues, since: Time, cursor: Option<Position>): set<string> {
    set id | id in issues && Matches(issues[id], since, cursor)
  }

  lemma PageMovesOn(issues: Issues, since: Time, cursor: Option<Position>, limit: int, page: Page)
    requires IsPage(issues, since, cursor, limit, page) && page.next.Some?
    ensures |Beyond(issues, since, page.next)| < |Beyond(issues, since, cursor)|
  {
    var a, b := Beyond(issues, since, page.next), Beyond(issues, since, cursor);
    var last := page.issues[limit - 1];
    Trichotomy(PositionOf(last), PositionOf(last));
    forall id | id in a ensures id in b {
      if cursor.Some? { Transitive(cursor.value, PositionOf(last), PositionOf(issues[id])); }
    }
    assert last.id in b && last.id !in a;
    Fewer(a, b, last.id);
  }

  lemma Fewer(a: set<string>, b: set<string>, x: string)
    requires a <= b && x in b && x !in a
    ensures |a| < |b|
  {
    SubsetSmaller(a, b - {x});
  }

  /** What a run has to go by: the checkpoint it found, where that resumes, and what will
      happen until when. */
  datatype Plan = Plan(prior: SyncState, since: Time, turns: seq<Turn>, deadline: int)

  /** How many issues the run has to list if nobody writes. */
  function Size(p: Plan, start: Tracker): nat {
    |Beyond(start.issues, p.since, p.prior.nextCursor)|
  }

  /** The first n turns had time and did not fail. */
  predicate Through(p: Plan, n: nat)
    requires n <= |p.turns|
  {
    n == 0 || (Through(p, n - 1) && InTime(p.turns, n - 1, p.deadline) && !Fails(p.turns[n - 1]))
  }

  /** How a run that ended in turn number at must have ended. */
  predicate EndsSo(p: Plan, at: nat, r: Result<Pulled, PullError>) {
    && at <= |p.turns| && Through(p, at)
    && (r == Ok(Pulled(false)) <==> at == |p.turns| || !InTime(p.turns, at, p.deadline))
    && (r.Err? ==> at < |p.turns| && Fails(p.turns[at]) && (r.error == ListFailed <==> p.turns[at].listFails))
    && (r == Ok(Pulled(true)) ==> at < |p.turns| && !Fails(p.turns[at]))
  }

  datatype Pulled = Pulled(done: bool)
  datatype PullError = ListFailed | CommitFailed

  class Extractor {
    const server: Server
    const store: Store
    const budget: int
    const overlap: nat
    const pageSize: int
    var state: SyncState
    /** When the tracker was last written to. */
    var latest: Time

    constructor (server: Server, store: Store, budget: int, overlap: nat, pageSize: int, latest: Time)
      ensures this.server == server && this.store == store && this.overlap == overlap
      ensures state == NO_STATE && this.latest == latest
      ensures Timed(server.issues, latest) && Numbered(server.issues, server.nextIssue) ==> Good()
    {
      this.server, this.store, this.budget, this.overlap, this.pageSize := server, store, budget, overlap, pageSize;
      state, this.latest := NO_STATE, latest;
    }

    ghost predicate Good()
      reads this, server, store
    {
      && Timed(server.issues, latest) && Numbered(server.issues, server.nextIssue)
      && GoodState(server.issues, store.links, latest, state)
    }

    function Tracking(): Tracker
      reads this, server
    {
      Tracker(server.issues, server.nextIssue, latest)
    }

    /** One write by somebody else, or one webhook delivery. */
    method Happen(h: Happening)
      modifies this`latest, server`issues, server`nextIssue, store`links, store`items, store`outbox
      ensures Tracking() == Happened(old(Tracking()), h) && Grows(old(store.links), store.links)
    {
      match h {
        case Created(at, summary, status, description) =>
          var _ := server.Create(summary, status, description, at);
          latest := at;
        case Edited(at, id, patch) =>
          var _ := server.Update(id, patch, at);
          latest := at;
        case Removed(at, id) =>
          var _ := server.Delete(id, at);
          latest := at;
        case Hook(issue, newId) =>
          ghost var t := store.View();
          var _ := store.Apply(Webhook, issue, newId);
          InboundGrows(store.system, store.ownership, t, Webhook, issue, newId);
      }
    }

    /** Other people's writes and webhook deliveries. */
    method Meanwhile(hs: seq<Happening>)
      requires Timed(server.issues, latest) && Numbered(server.issues, server.nextIssue) && Ordered(hs, latest)
      modifies this`latest, server`issues, server`nextIssue, store`links, store`items, store`outbox
      ensures Tracking() == AllHappened(old(Tracking()), hs)
      ensures Timed(server.issues, latest) && Numbered(server.issues, server.nextIssue)
      ensures Evolves(old(server.issues), old(latest), server.issues, latest)
      ensures Grows(old(store.links), store.links)
    {
      AllHappenedEvolves(Tracking(), hs);
      var rest := hs;
      while rest != []
        invariant AllHappened(Tracking(), rest) == AllHappened(old(Tracking()), hs)
        invariant Grows(old(store.links), store.links)
        decreases rest
      {
        Happen(rest[0]);
        rest := rest[1..];
      }
    }

    /** Applies the issues of one page. */
    method ApplyPage(issues: seq<Issue>, newId: nat)
      modifies store`links, store`items, store`outbox
      ensures store.View() == Polled(store.system, store.ownership, old(store.View()), issues, 0, newId)
    {
      for k := 0 to |issues|
        invariant Polled(store.system, store.ownership, store.View(), issues, k, newId)
                  == Polled(store.system, store.ownership, old(store.View()), issues, 0, newId)
      {
        PollOne(issues[k], newId + k);
      }
    }

    /** One issue polled. */
    method PollOne(i: Issue, newId: nat)
      modifies store`links, store`items, store`outbox
      ensures store.View() == PollOf(store.system, store.ownership, old(store.View()), i, newId)
    {
      var _ := store.Apply(Poll, i, newId);
    }

    /** The newest time seen: never below what it was, never beyond the tracker's. */
    static method NewestOf(runMax: Option<Time>, issues: seq<Issue>, ghost bound: Time) returns (r: Option<Time>)
      requires NotAfter(runMax, bound) && forall k | 0 <= k < |issues| :: issues[k].updatedAt <= bound
      ensures NotBefore(runMax, r) && NotAfter(r, bound)
      ensures r == runMax || exists k :: 0 <= k < |issues| && r == Some(issues[k].updatedAt)
      ensures forall k | 0 <= k < |issues| :: Covers(r, issues[k])
    {
      r := runMax;
      for n := 0 to |issues|
        invariant NotBefore(runMax, r) && NotAfter(r, bound)
        invariant r == runMax || exists k :: 0 <= k < n && r == Some(issues[k].updatedAt)
        invariant forall k | 0 <= k < n :: Covers(r, issues[k])
      {
        if r.None? || issues[n].updatedAt > r.value { r := Some(issues[n].updatedAt); }
      }
    }

    /** One page, and the newest time seen with it. */
    method ListPage(since: Time, cursor: Option<Position>, runMax: Option<Time>, ghost watermark: Option<Time>)
      returns (page: Page, newest: Option<Time>)
      requires Timed(server.issues, latest)
      requires Underway(server.issues, store.links, latest, watermark, since, cursor, runMax)
      ensures OnPage(server.issues, store.links, page, since, latest)
          && IsPage(server.issues, since, cursor, pageSize, page)
      ensures since <= latest && NotBefore(watermark, newest) && NotAfter(newest, latest)
      ensures SeenOn(server.issues, page, since, newest)
      ensures page.next.Some? ==> page.next.value.at <= latest
    {
      page := server.List(since, cursor, pageSize);
      newest := NewestOf(runMax, page.issues, latest);
      FetchedPage(server.issues, store.links, since, cursor, pageSize, page, latest);
      FetchedSeen(server.issues, since, cursor, pageSize, page, runMax, newest);
    }

    /** Fetches one page, after whatever has happened since the last one. */
    method Fetch(before: seq<Happening>, since: Time, cursor: Option<Position>, runMax: Option<Time>,
                 ghost watermark: Option<Time>)
      returns (page: Page, newest: Option<Time>)
      requires Good() && Ordered(before, latest)
      requires Underway(server.issues, store.links, latest, watermark, since, cursor, runMax)
      modifies this`latest, server`issues, server`nextIssue, store`links, store`items, store`outbox
      ensures Good() && Tracking() == AllHappened(old(Tracking()), before)
      ensures OnPage(server.issues, store.links, page, since, latest)
          && IsPage(server.issues, since, cursor, pageSize, page)
      ensures since <= latest && NotBefore(watermark, newest) && NotAfter(newest, latest)
      ensures SeenOn(server.issues, page, since, newest)
      ensures page.next.Some? ==> page.next.value.at <= latest
    {
      ghost var issues0, at0, links0 := server.issues, latest, store.links;
      Meanwhile(before);
      EvolvedState(issues0, links0, at0, state, server.issues, latest, store.links);
      EvolvedAhead(issues0, links0, at0, watermark, since, cursor, runMax, server.issues, latest, store.links);
      page, newest := ListPage(since, cursor, runMax, watermark);
    }

    /** Applies a fetched page and its checkpoint in one transaction, after whatever has
        happened since the fetch; a failed one leaves nothing behind. */
    method Commit(during: seq<Happening>, prior: SyncState, page: Page, since: Time, runMax: Option<Time>,
                  fails: bool, newId: nat)
      returns (ok: bool)
      requires Good() && Ordered(during, latest)
      requires OnPage(server.issues, store.links, page, since, latest)
      requires since <= latest && NotBefore(prior.watermark, runMax) && NotAfter(runMax, latest)
      requires SeenOn(server.issues, page, since, runMax) && Witnessed(server.issues, prior.watermark)
      requires page.next.Some? ==> page.next.value.at <= latest
      modifies this`state, this`latest, server`issues, server`nextIssue, store`links, store`items, store`outbox
      ensures Good() && Tracking() == AllHappened(old(Tracking()), during)
      ensures ok <==> !fails
      ensures state == if ok then Checkpoint(prior, since, page.next, runMax) else old(state)
      ensures ok && page.next.Some? ==> Underway(server.issues, store.links, latest, prior.watermark, since,
                                                 page.next, runMax)
      ensures ok && page.next.None? ==> AllRecorded(store.links, old(server.issues)) && IsNewest(old(server.issues), runMax)
    {
      ghost var fetched, fetchedAt, links := server.issues, latest, store.links;
      Meanwhile(during);
      EvolvedState(fetched, links, fetchedAt, state, server.issues, latest, store.links);
      EvolvedWitness(fetched, prior.watermark, fetchedAt, server.issues, latest);
      if fails { return false; }
      ghost var t := store.View();
      ApplyPage(page.issues, newId);
      PolledCatches(store.system, store.ownership, t, page.issues, 0, newId);
      PageDone(fetched, links, fetchedAt, page, since, runMax, prior.watermark, server.issues, latest, store.links);
      state := Checkpoint(prior, since, page.next, runMax);
      return true;
    }

    /** One page, from fetch to commit. */
    method PullPage(turn: Turn, prior: SyncState, since: Time, cursor: Option<Position>, runMax: Option<Time>)
      returns (page: Page, newest: Option<Time>, failed: Option<PullError>)
      requires Good() && Ordered(turn.before, latest)
          && Ordered(turn.during, AllHappened(Tracking(), turn.before).latest)
      requires Underway(server.issues, store.links, latest, prior.watermark, since, cursor, runMax)
      modifies this`state, this`latest, server`issues, server`nextIssue, store`links, store`items, store`outbox
      ensures Good() && (failed.None? ==> Tracking() == AllHappened(AllHappened(old(Tracking()), turn.before), turn.during))
      ensures turn.before == [] && turn.during == [] ==> Tracking() == old(Tracking())
      ensures NotBefore(prior.watermark, newest)
      ensures failed == if turn.listFails then Some(ListFailed) else if turn.commitFails then Some(CommitFailed) else None
      ensures state == if failed.Some? then old(state) else Checkpoint(prior, since, page.next, newest)
      ensures failed.None? && page.next.Some?
          ==> Underway(server.issues, store.links, latest, prior.watermark, since, page.next, newest)
      ensures failed.None? && page.next.None?
          ==> AllRecorded(store.links, AllHappened(old(Tracking()), turn.before).issues)
              && IsNewest(AllHappened(old(Tracking()), turn.before).issues, newest)
      ensures failed.None? && turn.before == [] && turn.during == [] && page.next.Some? ==>
                |Beyond(server.issues, since, page.next)| < |Beyond(old(server.issues), since, cursor)|
    {
      page, newest := Fetch(turn.before, since, cursor, runMax, prior.watermark);
      failed := None;
      if page.next.Some? { PageMovesOn(server.issues, since, cursor, pageSize, page); }
      if turn.listFails { return page, newest, Some(ListFailed); }
      var ok := Commit(turn.during, prior, page, since, newest, turn.commitFails, turn.newId);
      if !ok { failed := Some(CommitFailed); }
    }

    /** Where a checkpoint goes on: in the run it was taken in, or with a new one that looks
        back a little before the watermark, so that a write showing up late is listed as
        long as its time is no older than that. */
    function SinceOf(s: SyncState): Time {
      if s.nextCursor.None? then if s.watermark.Some? then s.watermark.value - overlap else ZERO
      else if s.runSince.Some? then s.runSince.value else ZERO
    }

    /** The issues a run resumed from the checkpoint has yet to list. */
    function Unlisted(): set<string>
      reads this, server
    {
      Beyond(server.issues, SinceOf(state), state.nextCursor)
    }

    method Resume() returns (since: Time, runMax: Option<Time>)
      requires Good()
      ensures Underway(server.issues, store.links, latest, state.watermark, since, state.nextCursor, runMax)
      ensures since == SinceOf(state)
      ensures forall i: Issue :: state.nextCursor.None? && state.watermark.Some? ==>
                                   (Matches(i, since, None) <==> i.updatedAt >= state.watermark.value - overlap)
      ensures forall i: Issue :: state == NO_STATE && i.updatedAt >= ZERO ==> Matches(i, since, None)
    {
      since := if state.runSince.Some? then state.runSince.value else ZERO;
      runMax := state.runMax;
      if state.nextCursor.None? {
        since := ZERO;
        if state.watermark.Some? { since := state.watermark.value - overlap; }
        runMax := state.watermark;
      }
    }

    /** Before turn n: nothing unrecorded is behind the cursor, every page so far is in the
        checkpoint, and while nobody writes each has left fewer issues beyond it. */
    ghost predicate Midway(p: Plan, start: Tracker, n: nat, cursor: Option<Position>, runMax: Option<Time>)
      reads this, server, store
    {
      && n <= |p.turns| && Tracking() == AfterTurns(start, p.turns, n)
      && Good() && Underway(server.issues, store.links, latest, p.prior.watermark, p.since, cursor, runMax)
      && (if n == 0 then state == p.prior && cursor == p.prior.nextCursor && p.since == SinceOf(p.prior)
          else cursor.Some? && state == SyncState(p.prior.watermark, Some(p.since), cursor, runMax))
      && (Still(p.turns) ==> |Beyond(server.issues, p.since, cursor)| + n <= Size(p, start))
    }

    /** What is left of an unfinished run after n whole turns: its checkpoint. */
    ghost predicate Stopped(p: Plan, start: Tracker, n: nat)
      reads this, server, store
    {
      && Good() && state.watermark == p.prior.watermark
      && (if n == 0 then state == p.prior else state.nextCursor.Some?)
      && (Still(p.turns) ==> |Unlisted()| + n <= Size(p, start))
    }

    /** A finished one: everything of its last fetch, in turn n, is recorded, and the
        watermark is the time of the newest issue there was. */
    ghost predicate Finished(p: Plan, start: Tracker, n: nat)
      requires n < |p.turns|
      reads this, server, store
    {
      && Good() && Tracking() == AfterTurns(start, p.turns, n + 1) && state.nextCursor == None
      && AllRecorded(store.links, AtFetch(start, p.turns, n).issues)
      && IsNewest(AtFetch(start, p.turns, n).issues, state.watermark)
    }

    /** The loop before turn n. */
    ghost predicate Here(p: Plan, start: Tracker, n: nat, slowest: int, cursor: Option<Position>,
                         runMax: Option<Time>)
      reads this, server, store
    {
      Midway(p, start, n, cursor, runMax) && Through(p, n) && slowest == SlowestBefore(p.turns, n)
    }

    /** How the run left things. */
    ghost predicate Ended(p: Plan, start: Tracker, at: nat, r: Result<Pulled, PullError>)
      requires EndsSo(p, at, r)
      reads this, server, store
    {
      && NotBefore(p.prior.watermark, state.watermark)
      && if r == Ok(Pulled(true)) then Finished(p, start, at) else Stopped(p, start, at)
    }

    /** A run cut short between two turns. */
    lemma MidwayStops(p: Plan, start: Tracker, n: nat, cursor: Option<Position>, runMax: Option<Time>)
      requires Midway(p, start, n, cursor, runMax)
      ensures Stopped(p, start, n) && NotBefore(p.prior.watermark, state.watermark)
    {
    }

    /** One turn, when there is time for it. */
    method TakeTurn(p: Plan, ghost start: Tracker, n: nat, cursor: Option<Position>, runMax: Option<Time>)
      returns (next: Option<Position>, newest: Option<Time>, failed: Option<PullError>)
      requires n < |p.turns| && Midway(p, start, n, cursor, runMax) && OrderedTurns(p.turns, 0, start)
      modifies this`state, this`latest, server`issues, server`nextIssue, store`links, store`items, store`outbox
      ensures NotBefore(p.prior.watermark, state.watermark)
      ensures failed == if p.turns[n].listFails then Some(ListFailed)
                        else if p.turns[n].commitFails then Some(CommitFailed) else None
      ensures failed.Some? ==> Stopped(p, start, n)
      ensures failed.None? && next.Some? ==> Midway(p, start, n + 1, next, newest)
      ensures failed.None? && next.None? ==> Finished(p, start, n)
    {
      OrderedFrom(start, p.turns, n);
      var page;
      page, newest, failed := PullPage(p.turns[n], p.prior, p.since, cursor, runMax);
      next := page.next;
    }

    /** One round of the loop: a turn if there is time, and how the run ends if it does. */
    method Round(p: Plan, ghost start: Tracker, n: nat, slowest: int, cursor: Option<Position>, runMax: Option<Time>)
      returns (next: Option<Position>, newest: Option<Time>, r: Option<Result<Pulled, PullError>>)
      requires n < |p.turns| && Here(p, start, n, slowest, cursor, runMax) && OrderedTurns(p.turns, 0, start)
      modifies this`state, this`latest, server`issues, server`nextIssue, store`links, store`items, store`outbox
      ensures r.None? ==> Here(p, start, n + 1, Slower(slowest, p.turns[n]), next, newest)
      ensures r.Some? ==> EndsSo(p, n, r.value) && Ended(p, start, n, r.value)
    {
      next, newest := cursor, runMax;
      var remaining := p.deadline - p.turns[n].checkedAt;
      if remaining <= 0 || remaining < slowest {
        MidwayStops(p, start, n, cursor, runMax);
        return next, newest, Some(Ok(Pulled(false)));
      }
      var failed;
      next, newest, failed := TakeTurn(p, start, n, cursor, runMax);
      r := if failed.Some? then Some(Err(failed.value)) else if next.None? then Some(Ok(Pulled(true))) else None;
    }

    /** Out of turns. */
    lemma CrashEnds(p: Plan, start: Tracker, slowest: int, cursor: Option<Position>, runMax: Option<Time>)
      requires Here(p, start, |p.turns|, slowest, cursor, runMax)
      ensures EndsSo(p, |p.turns|, Ok(Pulled(false))) && Ended(p, start, |p.turns|, Ok(Pulled(false)))
    {
      MidwayStops(p, start, |p.turns|, cursor, runMax);
    }

    /** The loop: turn after turn until the run is over. */
    method TakeTurns(p: Plan, ghost start: Tracker, first: Option<Position>, firstMax: Option<Time>)
      returns (r: Result<Pulled, PullError>, ghost at: nat)
      requires Here(p, start, 0, 0, first, firstMax) && OrderedTurns(p.turns, 0, start)
      modifies this`state, this`latest, server`issues, server`nextIssue, store`links, store`items, store`outbox
      ensures EndsSo(p, at, r) && Ended(p, start, at, r)
    {
      var cursor, runMax, slowest, n := first, firstMax, 0, 0;
      while n < |p.turns|
        invariant n <= |p.turns| && Here(p, start, n, slowest, cursor, runMax)
      {
        var end;
        cursor, runMax, end := Round(p, start, n, slowest, cursor, runMax);
        if end.Some? { return end.value, n; }
        slowest, n := Slower(slowest, p.turns[n]), n + 1;
      }
      CrashEnds(p, start, slowest, cursor, runMax);
      return Ok(Pulled(false)), n;
    }

    /** Runs until a page is the last, the budget is spent, something fails, or the turns
        give out, which is a crash; at counts the whole turns before that. No turn begins
        without time for it. However it ends the checkpoint stays good. Done, in turn number
        at, every issue's recorded version has reached the one it had when that turn fetched
        its page, and the watermark is the time of the newest issue there was. Not done, the
        watermark is where it was and the next run goes on after the last page: while nobody
        writes, every page leaves it one issue less to list. Left in peace, the run is done
        within a turn for each issue it has to list and one more. */
    method Run(now: int, turns: seq<Turn>) returns (r: Result<Pulled, PullError>, ghost at: nat)
      requires Good() && OrderedTurns(turns, 0, Tracking())
      modifies this`state, this`latest, server`issues, server`nextIssue, store`links, store`items, store`outbox
      ensures Good() && NotBefore(old(state.watermark), state.watermark)
      ensures EndsSo(Plan(old(state), old(SinceOf(state)), turns, now + budget), at, r)
      ensures r == Ok(Pulled(true)) ==>
                && Tracking() == AfterTurns(old(Tracking()), turns, at + 1) && state.nextCursor == None
                && AllRecorded(store.links, AtFetch(old(Tracking()), turns, at).issues)
                && IsNewest(AtFetch(old(Tracking()), turns, at).issues, state.watermark)
      ensures r != Ok(Pulled(true)) ==>
                && state.watermark == old(state.watermark)
                && (if at == 0 then state == old(state) else state.nextCursor.Some?)
                && (Still(turns) ==> |Unlisted()| + at <= old(|Unlisted()|))
      ensures Quiet(turns, now + budget) && |turns| > old(|Unlisted()|) ==> r == Ok(Pulled(true))
    {
      var since, runMax := Resume();
      var p := Plan(state, since, turns, now + budget);
      r, at := TakeTurns(p, Tracking(), state.nextCursor, runMax);
      assert r.Ok? ==> r == Ok(Pulled(r.value.done));
      if at < |turns| && Quiet(turns, now + budget) { assert InTime(turns, at, now + budget) && !Fails(turns[at]); }
    }
  }
}
