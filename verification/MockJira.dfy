/** The external tracker: a versioned issue store, paged by position, whose PATCH is
    replayed for a repeated idempotency key. */
module MockJira {
  import opened Wrappers

  type Time = int

  datatype Issue = Issue(id: string, summary: string, status: string, description: string,
                         version: int, deleted: bool, updatedAt: Time)

  datatype Patch = Patch(summary: Option<string>, status: Option<string>, description: Option<string>)

  type Issues = map<string, Issue>

  /** Where an issue stands in the listing order; a cursor is the position of the last
      issue of a page. */
  datatype Position = Position(at: Time, id: string)

  datatype Page = Page(issues: seq<Issue>, next: Option<Position>)

  predicate TextLess(a: string, b: string) {
    b != [] && (a == [] || a[0] < b[0] || (a[0] == b[0] && TextLess(a[1..], b[1..])))
  }

  predicate Before(p: Position, q: Position) {
    p.at < q.at || (p.at == q.at && TextLess(p.id, q.id))
  }

  function PositionOf(i: Issue): Position {
    Position(i.updatedAt, i.id)
  }

  predicate Matches(i: Issue, since: Time, after: Option<Position>) {
    i.updatedAt >= since && (after.Some? ==> Before(after.value, PositionOf(i)))
  }

  // ---- The order is strict and total ----

  lemma {:induction false} TextTransitive(a: string, b: string, c: string)
    requires TextLess(a, b) && TextLess(b, c)
    ensures TextLess(a, c)
  {
    if a != [] && a[0] == b[0] == c[0] { TextTransitive(a[1..], b[1..], c[1..]); }
  }

  lemma {:induction false} TextTrichotomy(a: string, b: string)
    ensures TextLess(a, b) || a == b || TextLess(b, a)
    ensures !(TextLess(a, b) && TextLess(b, a)) && !TextLess(a, a)
  {
    if a != [] && b != [] {
      TextTrichotomy(a[1..], b[1..]);
      TextTrichotomy(a[1..], a[1..]);
      if a[0] == b[0] && a[1..] == b[1..] { assert a == [a[0]] + a[1..] == [b[0]] + b[1..] == b; }
    } else if a != [] {
      TextTrichotomy(a[1..], a[1..]);
    }
  }

  lemma Transitive(p: Position, q: Position, r: Position)
    requires Before(p, q) && Before(q, r)
    ensures Before(p, r)
  {
    if p.at == q.at == r.at { TextTransitive(p.id, q.id, r.id); }
  }

  /** The texts agree up to place k, where the first ends or has the lesser character. */
  ghost predicate PartsAt(a: string, b: string, k: nat) {
    k <= |a| && k < |b| && (forall i | 0 <= i < k :: a[i] == b[i]) && (k < |a| ==> a[k] < b[k])
  }

  lemma {:induction false} TextLessIff(a: string, b: string)
    ensures TextLess(a, b) <==> exists k: nat :: PartsAt(a, b, k)
  {
    if a == [] || b == [] || a[0] != b[0] {
      assert TextLess(a, b) ==> PartsAt(a, b, 0);
    } else {
      TextLessIff(a[1..], b[1..]);
      if k: nat :| PartsAt(a[1..], b[1..], k) {
        forall i | 0 <= i < k + 1 ensures a[i] == b[i] { if i > 0 { assert a[1..][i - 1] == b[1..][i - 1]; } }
        assert PartsAt(a, b, k + 1);
      }
      if k: nat :| PartsAt(a, b, k) { assert PartsAt(a[1..], b[1..], k - 1); }
    }
  }

  /** Positions are ordered by time, and at one time by id, character by character; the
      order is strict and total. */
  lemma Trichotomy(p: Position, q: Position)
    ensures Before(p, q) <==> p.at < q.at || (p.at == q.at && exists k: nat :: PartsAt(p.id, q.id, k))
    ensures Before(p, q) || p == q || Before(q, p)
    ensures !(Before(p, q) && Before(q, p)) && !Before(p, p)
  {
    TextTrichotomy(p.id, q.id);
    TextLessIff(p.id, q.id);
  }

  // ---- A page ----

  ghost predicate Sorted(s: seq<Issue>) {
    forall i, j | 0 <= i < j < |s| :: Before(PositionOf(s[i]), PositionOf(s[j]))
  }

  /** Every issue is stored under its own id. */
  ghost predicate ById(issues: Issues) {
    forall id | id in issues :: issues[id].id == id
  }

  ghost predicate Holds(issues: Issues, i: Issue) {
    i.id in issues && issues[i.id] == i
  }

  /** One page of the listing: the matching issues in order, cut after limit; what was
      cut off lies beyond the cursor. */
  ghost predicate IsPage(issues: Issues, since: Time, after: Option<Position>, limit: int, page: Page) {
    && Sorted(page.issues)
    && (forall k | 0 <= k < |page.issues| :: Holds(issues, page.issues[k]) && Matches(page.issues[k], since, after))
    && (forall id | id in issues && Matches(issues[id], since, after) ::
          issues[id] in page.issues || (page.next.Some? && Before(page.next.value, PositionOf(issues[id]))))
    && (page.next.Some? ==>
          limit > 0 && |page.issues| == limit && page.next.value == PositionOf(page.issues[limit - 1])
          && exists id :: id in issues && Matches(issues[id], since, after) && Before(page.next.value, PositionOf(issues[id])))
  }

  /** What one mutation of one issue leaves behind: at the new time, a version higher. */
  function Changed(i: Issue, p: Patch, now: Time): Issue {
    i.(summary := if p.summary.Some? then p.summary.value else i.summary,
       status := if p.status.Some? then p.status.value else i.status,
       description := if p.description.Some? then p.description.value else i.description,
       version := i.version + 1, updatedAt := now)
  }

  predicate SameText(i: Issue, j: Issue) {
    i.id == j.id && i.summary == j.summary && i.status == j.status && i.description == j.description
  }

  predicate Takes(given: Option<string>, before: string, after: string) {
    if given.Some? then after == given.value else after == before
  }

  /** Each field the patch gives is new, the others are as before, one version higher. */
  predicate Applies(p: Patch, before: Issue, after: Issue) {
    && Takes(p.summary, before.summary, after.summary) && Takes(p.status, before.status, after.status)
    && Takes(p.description, before.description, after.description)
    && after.id == before.id && after.deleted == before.deleted && after.version == before.version + 1
  }

  function DeletedAt(i: Issue, now: Time): Issue {
    i.(deleted := true, version := i.version + 1, updatedAt := now)
  }

  function Decimal(n: nat): string {
    var digit := [['0', '1', '2', '3', '4', '5', '6', '7', '8', '9'][n % 10]];
    if n < 10 then digit else Decimal(n / 10) + digit
  }

  function IssueId(n: nat): string {
    "MJ-" + Decimal(n)
  }

  // ---- A new id is new ----

  /** Different numbers are written differently. */
  lemma {:induction false} DecimalInjective(m: nat, n: nat)
    requires Decimal(m) == Decimal(n)
    ensures m == n
  {
    var a, b := Decimal(m), Decimal(n);
    LastDigit(m);
    LastDigit(n);
    assert m % 10 == n % 10;
    if m >= 10 && n >= 10 {
      assert Decimal(m / 10) == a[..|a| - 1] == b[..|b| - 1] == Decimal(n / 10);
      DecimalInjective(m / 10, n / 10);
    }
  }

  lemma LastDigit(n: nat)
    ensures var d := Decimal(n); d != [] && d[|d| - 1] as int == '0' as int + n % 10 && (|d| == 1 <==> n < 10)
  {
    if n >= 10 { assert |Decimal(n / 10)| > 0; }
  }

  /** The ids in the store are those of the issues created so far. */
  ghost predicate Numbered(issues: Issues, created: nat) {
    forall id | id in issues :: exists n :: 1 <= n <= created && id == IssueId(n)
  }

  /** So the next one created overwrites none. */
  lemma NextIdIsNew(issues: Issues, created: nat, i: Issue)
    requires Numbered(issues, created)
    ensures IssueId(created + 1) !in issues
    ensures Numbered(issues[IssueId(created + 1) := i], created + 1)
  {
    if IssueId(created + 1) in issues {
      var n :| 1 <= n <= created && IssueId(created + 1) == IssueId(n);
      assert Decimal(n) == IssueId(n)[3..] == IssueId(created + 1)[3..] == Decimal(created + 1);
      DecimalInjective(n, created + 1);
    }
  }

  /** The server's answer to a PATCH: a repeated key gets the first answer back. */
  datatype Answer = Answer(issues: Issues, replies: map<nat, Issue>, reply: Option<Issue>)

  function Patched(issues: Issues, replies: map<nat, Issue>, id: string, p: Patch, key: Option<nat>,
                   now: Time): Answer {
    if key.Some? && key.value in replies then Answer(issues, replies, Some(replies[key.value]))
    else if id !in issues then Answer(issues, replies, None)
    else
      var i := Changed(issues[id], p, now);
      Answer(issues[id := i], if key.Some? then replies[key.value := i] else replies, Some(i))
  }

  class Server {
    var issues: Issues
    var nextIssue: nat
    var replies: map<nat, Issue>
    var patchCalls: nat

    constructor ()
      ensures issues == map[] && nextIssue == 0 && replies == map[] && patchCalls == 0
    {
      issues, nextIssue, replies, patchCalls := map[], 0, map[], 0;
    }

    method Create(summary: string, status: string, description: string, now: Time) returns (i: Issue)
      modifies this`issues, this`nextIssue
      ensures i == Issue(IssueId(old(nextIssue) + 1), summary, status, description, 1, false, now)
      ensures issues == old(issues)[i.id := i] && nextIssue == old(nextIssue) + 1
      ensures Numbered(old(issues), old(nextIssue)) ==> i.id !in old(issues) && Numbered(issues, nextIssue)
    {
      nextIssue := nextIssue + 1;
      i := Issue(IssueId(nextIssue), summary, status, description, 1, false, now);
      if Numbered(issues, nextIssue - 1) { NextIdIsNew(issues, nextIssue - 1, i); }
      issues := issues[i.id := i];
    }

    method Update(id: string, p: Patch, now: Time) returns (r: Option<Issue>)
      modifies this`issues
      ensures r == if id in old(issues) then Some(Changed(old(issues)[id], p, now)) else None
      ensures r.Some? ==> Applies(p, old(issues)[id], r.value) && r.value.updatedAt == now
      ensures issues == if r.Some? then old(issues)[id := r.value] else old(issues)
    {
      if id !in issues { return None; }
      var i := issues[id];
      if p.summary.Some? { i := i.(summary := p.summary.value); }
      if p.status.Some? { i := i.(status := p.status.value); }
      if p.description.Some? { i := i.(description := p.description.value); }
      i := i.(version := i.version + 1);
      i := i.(updatedAt := now);
      issues := issues[id := i];
      return Some(i);
    }

    method Delete(id: string, now: Time) returns (r: Option<Issue>)
      modifies this`issues
      ensures r == if id in old(issues) then Some(DeletedAt(old(issues)[id], now)) else None
      ensures r.Some? ==> r.value.deleted && r.value.version == old(issues)[id].version + 1 && SameText(r.value, old(issues)[id])
      ensures issues == if r.Some? then old(issues)[id := r.value] else old(issues)
    {
      if id !in issues { return None; }
      var i := issues[id].(deleted := true);
      i := i.(version := i.version + 1, updatedAt := now);
      issues := issues[id := i];
      return Some(i);
    }

    method Patch(id: string, p: Patch, key: Option<nat>, now: Time) returns (r: Option<Issue>)
      modifies this`issues, this`replies, this`patchCalls
      ensures patchCalls == old(patchCalls) + 1
      ensures Answer(issues, replies, r) == Patched(old(issues), old(replies), id, p, key, now)
    {
      patchCalls := patchCalls + 1;
      if key.Some? && key.value in replies { return Some(replies[key.value]); }
      r := Update(id, p, now);
      if r.Some? && key.Some? { replies := replies[key.value := r.value]; }
    }

    /** The issues at or after since and beyond the cursor, by position, one page of them. */
    method List(since: Time, after: Option<Position>, limit: int) returns (page: Page)
      requires ById(issues)
      ensures IsPage(issues, since, after, limit, page)
    {
      var matching: seq<Issue> := [];
      var ids := issues.Keys;
      while ids != {}
        invariant ids <= issues.Keys && Sorted(matching)
        invariant forall k | 0 <= k < |matching| :: Holds(issues,
                                                          matching[k]) && matching[k].id !in ids
                                                              && Matches(matching[k], since, after)
        invariant forall id | id in issues.Keys - ids && Matches(issues[id], since, after) :: issues[id] in matching
        decreases ids
      {
        var id :| id in ids;
        var i := issues[id];
        if i.updatedAt >= since && (after.None? || Before(after.value, PositionOf(i))) {
          var longer := Inserted(matching, i);
          forall k | 0 <= k < |longer| ensures longer[k] in matching || longer[k] == i { assert longer[k] in longer; }
          matching := longer;
        }
        ids := ids - {id};
      }
      page := Page(matching, None);
      if limit > 0 && |matching| > limit {
        page := Page(matching[..limit], Some(PositionOf(matching[limit - 1])));
        CutIsPage(issues, since, after, limit, matching);
      }
    }

    /** Puts one more issue in its place. */
    static method Inserted(s: seq<Issue>, i: Issue) returns (r: seq<Issue>)
      requires Sorted(s) && forall k | 0 <= k < |s| :: s[k].id != i.id
      ensures Sorted(r) && |r| == |s| + 1
      ensures forall x :: x in r <==> x in s || x == i
    {
      var n := 0;
      while n < |s| && Before(PositionOf(s[n]), PositionOf(i))
        invariant n <= |s|
        invariant forall k | 0 <= k < n :: Before(PositionOf(s[k]), PositionOf(i))
      {
        n := n + 1;
      }
      r := s[..n] + [i] + s[n..];
      forall k | n <= k < |s| ensures Before(PositionOf(i), PositionOf(s[k])) {
        Trichotomy(PositionOf(s[n]), PositionOf(i));
        if n < k { Transitive(PositionOf(i), PositionOf(s[n]), PositionOf(s[k])); }
      }
    }
  }

  lemma CutIsPage(issues: Issues, since: Time, after: Option<Position>, limit: int, matching: seq<Issue>)
    requires Sorted(matching) && 0 < limit < |matching|
    requires forall k | 0 <= k < |matching| :: Holds(issues, matching[k]) && Matches(matching[k], since, after)
    requires forall id | id in issues && Matches(issues[id], since, after) :: issues[id] in matching
    ensures IsPage(issues, since, after, limit, Page(matching[..limit], Some(PositionOf(matching[limit - 1]))))
  {
    var page := Page(matching[..limit], Some(PositionOf(matching[limit - 1])));
    forall id | id in issues && Matches(issues[id], since, after)
      ensures issues[id] in page.issues || Before(page.next.value, PositionOf(issues[id]))
    {
      var k :| 0 <= k < |matching| && matching[k] == issues[id];
      if k < limit { assert page.issues[k] == issues[id]; }
    }
    var cut := matching[limit];
    assert cut.id in issues && Matches(issues[cut.id], since, after)
        && Before(page.next.value, PositionOf(issues[cut.id]));
  }
}
