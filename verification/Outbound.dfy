/** Outbound sync: local edits pushed to the tracker, each event under its own
    idempotency key, and the proof that the two directions never feed each other. */
module Outbound {
  import opened Sets
  import opened Wrappers
  import opened MockJira
  import opened Twoway

  /** One request as the network decides it: refused before it touched anything, carried
      out with the answer lost, or answered. */
  datatype Attempt = Refused(retryable: bool) | AnswerLost(at: Time) | Answered(at: Time)

  /** How an event's handling ended. Unfinished is a crash: the event is delivered again. */
  datatype Ending = Reply(issue: Issue) | DeadLetter | Unfinished | Skipped

  datatype Push = Push(issues: Issues, replies: map<nat, Issue>, ending: Ending)

  /** The requests of one push, in turn; one more refusal or lost answer than maxAttempts
      allows is final. */
  function Pushes(issues: Issues, replies: map<nat, Issue>, id: string, p: Patch, key: nat, attempts: seq<Attempt>,
                  left: nat): Push
    decreases attempts
  {
    if left == 0 then Push(issues, replies, DeadLetter)
    else if attempts == [] then Push(issues, replies, Unfinished)
    else match attempts[0]
      case Refused(retryable) =>
        if retryable then Pushes(issues, replies, id, p, key, attempts[1..], left - 1) else Push(issues, replies, DeadLetter)
      case AnswerLost(at) =>
        var a := Patched(issues, replies, id, p, Some(key), at);
        Pushes(a.issues, a.replies, id, p, key, attempts[1..], left - 1)
      case Answered(at) =>
        var a := Patched(issues, replies, id, p, Some(key), at);
        Push(a.issues, a.replies, if a.reply.Some? then Reply(a.reply.value) else DeadLetter)
  }

  /** However often it is retried, a push writes the issue at most once, and not at all
      once its key has been answered. */
  lemma {:induction false} PushesOnce(issues: Issues, replies: map<nat, Issue>, id: string, p: Patch, key: nat,
                                      attempts: seq<Attempt>, left: nat)
    ensures var r := Pushes(issues, replies, id, p, key, attempts, left);
            if key in replies || key !in r.replies then r.issues == issues && r.replies == replies
            else id in issues && id in r.issues && r.issues == issues[id := r.issues[id]] && r.issues[id].version == issues[id].version + 1
                 && r.replies == replies[key := r.issues[id]]
    ensures var r := Pushes(issues, replies, id, p, key, attempts, left);
            r.ending.Reply? ==> key in r.replies && r.ending.issue == r.replies[key]
    decreases attempts
  {
    if left > 0 && attempts != [] {
      match attempts[0]
      case Refused(_) => PushesOnce(issues, replies, id, p, key, attempts[1..], left - 1);
      case AnswerLost(at) =>
        var a := Patched(issues, replies, id, p, Some(key), at);
        PushesOnce(a.issues, a.replies, id, p, key, attempts[1..], left - 1);
      case Answered(_) =>
    }
  }

  // ---- Handling one event ----

  /** Only a newer version replaces what is remembered of a push. */
  function Remembered(pushed: map<nat, Pushed>, item: nat, i: Issue): map<nat, Pushed> {
    if item in pushed && pushed[item].version >= i.version then pushed else pushed[item := Pushed(i.version, ContentOf(i))]
  }

  ghost predicate LinkOf(links: map<string, Link>, item: nat, ext: Option<string>) {
    if ext.Some? then ext.value in links && links[ext.value].item == item
    else forall id | id in links :: links[id].item != item
  }

  predicate PushedOut(system: string, o: Ownership, e: Event, ext: Option<string>) {
    e.actor != OriginActor(system) && ext.Some? && !EmptyPatch(PatchFor(o, e.content))
  }

  function Handled(system: string, o: Ownership, issues: Issues, replies: map<nat, Issue>, e: Event, key: nat,
                   ext: Option<string>, attempts: seq<Attempt>, maxAttempts: nat): Push {
    if !PushedOut(system, o, e, ext) then Push(issues, replies, Skipped)
    else Pushes(issues, replies, ext.value, PatchFor(o, e.content), key, attempts, maxAttempts)
  }

  // ---- What a push comes to ----

  /** Another attempt is made after this one. */
  predicate Fleeting(a: Attempt) {
    a.AnswerLost? || (a.Refused? && a.retryable)
  }

  /** The first k attempts are made and another may follow. */
  ghost predicate After(attempts: seq<Attempt>, k: nat) {
    k <= |attempts| && forall j | 0 <= j < k :: Fleeting(attempts[j])
  }

  /** One of the attempts made is answered. */
  ghost predicate GetsAnswer(attempts: seq<Attempt>, left: nat) {
    exists k :: 0 <= k < left && k < |attempts| && After(attempts, k) && attempts[k].Answered?
  }

  /** One of them is carried out, answered or not. */
  ghost predicate GetsThrough(attempts: seq<Attempt>, left: nat) {
    exists k :: 0 <= k < left && k < |attempts| && After(attempts, k) && !attempts[k].Refused?
  }

  /** One of them is refused for good, or none is left. */
  ghost predicate GivesUp(attempts: seq<Attempt>, left: nat) {
    || After(attempts, left)
    || exists k :: 0 <= k < left && k < |attempts| && After(attempts, k) && attempts[k].Refused? && !attempts[k].retryable
  }

  lemma AfterFirst(attempts: seq<Attempt>, k: nat)
    requires attempts != [] && Fleeting(attempts[0])
    ensures After(attempts, k + 1) <==> After(attempts[1..], k)
  {
    if After(attempts[1..], k) {
      forall j | 0 <= j < k + 1 ensures Fleeting(attempts[j]) { if j > 0 { assert attempts[j] == attempts[1..][j - 1]; } }
    }
    if After(attempts, k + 1) {
      forall j | 0 <= j < k ensures Fleeting(attempts[1..][j]) { assert attempts[1..][j] == attempts[j + 1]; }
    }
  }

  /** After a fleeting first attempt everything depends on the others. */
  lemma RestDecides(attempts: seq<Attempt>, left: nat)
    requires attempts != [] && Fleeting(attempts[0]) && left > 0
    ensures GetsAnswer(attempts, left) <==> GetsAnswer(attempts[1..], left - 1)
    ensures GetsThrough(attempts, left) <==> !attempts[0].Refused? || GetsThrough(attempts[1..], left - 1)
    ensures GivesUp(attempts, left) <==> GivesUp(attempts[1..], left - 1)
  {
    var rest := attempts[1..];
    assert After(attempts, 0);
    AfterFirst(attempts, left - 1);
    forall k: nat | k < |rest| ensures (After(attempts, k + 1) <==> After(rest, k)) && attempts[k + 1] == rest[k] {
      AfterFirst(attempts, k);
    }
    forall k: nat | 0 < k < |attempts| ensures (After(attempts, k) <==> After(rest, k - 1)) && attempts[k] == rest[k - 1] {
      AfterFirst(attempts, k - 1);
    }
  }

  /** Any other first attempt is the last. */
  lemma FirstDecides(attempts: seq<Attempt>, left: nat)
    requires attempts != [] && !Fleeting(attempts[0]) && left > 0
    ensures GetsAnswer(attempts, left) <==> attempts[0].Answered?
    ensures GetsThrough(attempts, left) <==> attempts[0].Answered?
    ensures GivesUp(attempts, left) <==> attempts[0].Refused?
    ensures !After(attempts, |attempts|)
  {
    assert After(attempts, 0);
    assert forall k: nat | 0 < k :: !After(attempts, k);
  }

  lemma NoneDecides(attempts: seq<Attempt>, left: nat)
    requires attempts == [] || left == 0
    ensures !GetsAnswer(attempts, left) && !GetsThrough(attempts, left)
    ensures GivesUp(attempts, left) <==> left == 0
    ensures |attempts| < left ==> After(attempts, |attempts|)
  {
  }

  datatype Fate = Hears | Quits | CutShort

  function FateOf(attempts: seq<Attempt>, left: nat): Fate {
    if left == 0 then Quits
    else if attempts == [] then CutShort
    else if Fleeting(attempts[0]) then FateOf(attempts[1..], left - 1)
    else if attempts[0].Answered? then Hears
    else Quits
  }

  lemma {:induction false} FateIs(attempts: seq<Attempt>, left: nat)
    ensures FateOf(attempts, left) == Hears <==> GetsAnswer(attempts, left)
    ensures FateOf(attempts, left) == Quits <==> GivesUp(attempts, left)
    ensures FateOf(attempts, left) == CutShort <==> |attempts| < left && After(attempts, |attempts|)
  {
    if left == 0 || attempts == [] {
      NoneDecides(attempts, left);
    } else if !Fleeting(attempts[0]) {
      FirstDecides(attempts, left);
    } else {
      RestDecides(attempts, left);
      AfterFirst(attempts, |attempts| - 1);
      FateIs(attempts[1..], left - 1);
    }
  }

  predicate EndsAs(ending: Ending, fate: Fate) {
    match fate case Hears => ending.Reply? case Quits => ending.DeadLetter? case CutShort => ending.Unfinished?
  }

  lemma {:induction false} PushFate(issues: Issues, replies: map<nat, Issue>, id: string, p: Patch, key: nat,
                                    attempts: seq<Attempt>, left: nat)
    requires id in issues || key in replies
    ensures EndsAs(Pushes(issues, replies, id, p, key, attempts, left).ending, FateOf(attempts, left))
    decreases attempts
  {
    if left > 0 && attempts != [] {
      match attempts[0]
      case Refused(retryable) =>
        if retryable { PushFate(issues, replies, id, p, key, attempts[1..], left - 1); }
      case AnswerLost(at) =>
        var a := Patched(issues, replies, id, p, Some(key), at);
        PushFate(a.issues, a.replies, id, p, key, attempts[1..], left - 1);
      case Answered(_) =>
    }
  }

  /** How a push of an issue that exists ends, by its attempts alone: with the issue when
      one is answered, given up when one is refused for good or none is left, else cut short. */
  lemma PushEnds(issues: Issues, replies: map<nat, Issue>, id: string, p: Patch, key: nat, attempts: seq<Attempt>,
                 left: nat)
    requires id in issues || key in replies
    ensures var ending := Pushes(issues, replies, id, p, key, attempts, left).ending;
            && (ending.Reply? <==> GetsAnswer(attempts, left))
            && (ending.DeadLetter? <==> GivesUp(attempts, left))
            && (ending.Unfinished? <==> |attempts| < left && After(attempts, |attempts|))
  {
    PushFate(issues, replies, id, p, key, attempts, left);
    FateIs(attempts, left);
  }

  /** And what it leaves behind: the issue has the patch, once, exactly when an attempt gets
      through, whoever hears of it. */
  lemma {:induction false} PushWrites(issues: Issues, replies: map<nat, Issue>, id: string, p: Patch, key: nat,
                                      attempts: seq<Attempt>, left: nat)
    requires id in issues && key !in replies
    ensures var r := Pushes(issues, replies, id, p, key, attempts, left);
            && (key in r.replies <==> GetsThrough(attempts, left))
            && (key in r.replies ==> r.replies[key] == Changed(issues[id], p, r.replies[key].updatedAt))
    decreases attempts
  {
    if left == 0 || attempts == [] {
      NoneDecides(attempts, left);
    } else if !Fleeting(attempts[0]) {
      FirstDecides(attempts, left);
    } else {
      RestDecides(attempts, left);
      if attempts[0].AnswerLost? {
        var a := Patched(issues, replies, id, p, Some(key), attempts[0].at);
        PushesOnce(a.issues, a.replies, id, p, key, attempts[1..], left - 1);
      } else {
        PushWrites(issues, replies, id, p, key, attempts[1..], left - 1);
      }
    }
  }

  // ---- A local edit on its way out ----

  /** The issue after the tracker has taken an edit over: each internally owned field as
      edited, the others as they were, one version higher. */
  ghost predicate TookOver(o: Ownership, c: Content, before: Issue, after: Issue) {
    && after.id == before.id && after.version == before.version + 1 && after.deleted == before.deleted
    && forall f :: Part(ContentOf(after), f) == Part(if ExternalOwns(o, f) then ContentOf(before) else c, f)
  }

  lemma PatchTakenOver(o: Ownership, c: Content, before: Issue, now: Time)
    ensures TookOver(o, c, before, Changed(before, PatchFor(o, c), now))
  {
    forall f ensures Part(ContentOf(Changed(before, PatchFor(o, c), now)), f)
        == Part(if ExternalOwns(o, f) then ContentOf(before) else c, f) {
      match f case Title => case Status => case Notes =>
    }
  }

  ghost predicate OwnsSome(o: Ownership) {
    exists f :: !ExternalOwns(o, f)
  }

  lemma EmptyIff(o: Ownership, c: Content)
    ensures EmptyPatch(PatchFor(o, c)) <==> !OwnsSome(o)
  {
    if EmptyPatch(PatchFor(o, c)) { assert ExternalOwns(o, Title) && ExternalOwns(o, Status) && ExternalOwns(o, Notes); }
    if f :| !ExternalOwns(o, f) { match f case Title => case Status => case Notes => }
  }

  /** Whose events go out: those of a linked item that the tracker did not cause, unless it
      owns every field. */
  lemma PushedOutIff(system: string, o: Ownership, e: Event, ext: Option<string>)
    ensures PushedOut(system, o, e, ext) <==> e.actor != OriginActor(system) && ext.Some? && OwnsSome(o)
  {
    EmptyIff(o, e.content);
  }

  /** A local event of a linked item reaches the tracker: the issue takes the edit over
      exactly when one of its attempts gets through, the loader hears of it exactly when one
      is answered, and an edit without any field to push changes nothing. */
  lemma LocalEditIsPushed(system: string, o: Ownership, issues: Issues, replies: map<nat, Issue>, e: Event, key: nat,
                          id: string, attempts: seq<Attempt>, maxAttempts: nat)
    requires e.actor != OriginActor(system) && id in issues && key !in replies
    ensures var r := Handled(system, o, issues, replies, e, key, Some(id), attempts, maxAttempts);
            if !OwnsSome(o) then r == Push(issues, replies, Skipped)
            else
              && (r.ending.Reply? <==> GetsAnswer(attempts, maxAttempts))
              && (r.ending.DeadLetter? <==> GivesUp(attempts, maxAttempts))
              && (r.ending.Unfinished? <==> |attempts| < maxAttempts && After(attempts, |attempts|))
              && (if GetsThrough(attempts, maxAttempts) then
                    id in r.issues && r.issues == issues[id := r.issues[id]] && TookOver(o, e.content, issues[id], r.issues[id])
                    && (r.ending.Reply? ==> r.ending.issue == r.issues[id])
                  else r.issues == issues && r.replies == replies)
  {
    PushedOutIff(system, o, e, Some(id));
    if OwnsSome(o) {
      var p := PatchFor(o, e.content);
      PushEnds(issues, replies, id, p, key, attempts, maxAttempts);
      PushWrites(issues, replies, id, p, key, attempts, maxAttempts);
      PushesOnce(issues, replies, id, p, key, attempts, maxAttempts);
      var r := Pushes(issues, replies, id, p, key, attempts, maxAttempts);
      if key in r.replies { PatchTakenOver(o, e.content, issues[id], r.replies[key].updatedAt); }
    }
  }

  class Loader {
    const server: Server
    const store: Store
    const maxAttempts: nat
    var deadLetters: seq<nat>

    constructor (server: Server, store: Store, maxAttempts: nat)
      ensures this.server == server && this.store == store && this.maxAttempts == maxAttempts && deadLetters == []
    {
      this.server, this.store, this.maxAttempts, deadLetters := server, store, maxAttempts, [];
    }

    method FindLink(item: nat) returns (ext: Option<string>)
      ensures LinkOf(store.links, item, ext)
    {
      var ids := store.links.Keys;
      while ids != {}
        invariant ids <= store.links.Keys
        invariant forall id | id in store.links.Keys - ids :: store.links[id].item != item
        decreases ids
      {
        var id :| id in ids;
        if store.links[id].item == item { return Some(id); }
        ids := ids - {id};
      }
      return None;
    }

    /** Skips what the tracker itself caused, what has no issue yet and what would change
        nothing; otherwise pushes under the event's id and remembers the answer. */
    method Handle(key: nat, attempts: seq<Attempt>) returns (done: bool, ghost ext: Option<string>)
      requires key < |store.outbox|
      modifies this`deadLetters, server`issues, server`replies, server`patchCalls, store`pushed
      ensures LinkOf(store.links, store.outbox[key].item, ext)
      ensures var e := store.outbox[key];
              var r := Handled(store.system, store.ownership, old(server.issues), old(server.replies), e, key, ext,
                               attempts, maxAttempts);
              && server.issues == r.issues && server.replies == r.replies
              && store.pushed == (if r.ending.Reply? then Remembered(old(store.pushed), e.item, r.ending.issue) else old(store.pushed))
              && (done <==> !r.ending.Unfinished?)
              && deadLetters == if r.ending.DeadLetter? then old(deadLetters) + [key] else old(deadLetters)
    {
      var e := store.outbox[key];
      var found := FindLink(e.item);
      ext := found;
      if e.actor == OriginActor(store.system) || found.None? { return true, ext; }
      var patch := PatchFor(store.ownership, e.content);
      if EmptyPatch(patch) { return true, ext; }
      var rest, left := attempts, maxAttempts;
      while left > 0 && rest != []
        invariant Pushes(server.issues, server.replies, found.value, patch, key, rest, left)
                  == Pushes(old(server.issues), old(server.replies), found.value, patch, key, attempts, maxAttempts)
        invariant store.pushed == old(store.pushed) && deadLetters == old(deadLetters)
        decreases left
      {
        match rest[0] {
          case Refused(retryable) =>
            if !retryable {
              deadLetters := deadLetters + [key];
              return true, ext;
            }
          case AnswerLost(at) =>
            var _ := server.Patch(found.value, patch, Some(key), at);
          case Answered(at) =>
            var reply := server.Patch(found.value, patch, Some(key), at);
            if reply.None? {
              deadLetters := deadLetters + [key];
              return true, ext;
            }
            Remember(e.item, reply.value);
            return true, ext;
        }
        rest, left := rest[1..], left - 1;
      }
      if left == 0 {
        deadLetters := deadLetters + [key];
        return true, ext;
      }
      return false, ext;
    }

    method Remember(item: nat, i: Issue)
      modifies store`pushed
      ensures store.pushed == Remembered(old(store.pushed), item, i)
    {
      if item !in store.pushed || store.pushed[item].version < i.version {
        store.pushed := store.pushed[item := Pushed(i.version, ContentOf(i))];
      }
    }
  }

  /** The webhook a push provokes is recognised and changes nothing. */
  lemma PushComesBackAsEcho(system: string, o: Ownership, t: Tables, item: nat, i: Issue, newId: nat)
    requires i.id in t.links && t.links[i.id].item == item
    requires item in t.pushed ==> t.pushed[item].version < i.version
    ensures Inbound(system, o, t.(pushed := Remembered(t.pushed, item, i)), Webhook, i, newId)
            == (t.(pushed := Remembered(t.pushed, item, i)), Echo)
  {
  }

  function RememberedAll(pushed: map<nat, Pushed>, item: nat, answers: seq<Issue>): map<nat, Pushed> {
    if answers == [] then pushed
    else Remembered(RememberedAll(pushed, item, answers[..|answers| - 1]), item, answers[|answers| - 1])
  }

  /** Answer k is the first of the greatest version. */
  ghost predicate FirstNewest(answers: seq<Issue>, k: nat) {
    && k < |answers| && (forall j | 0 <= j < |answers| :: answers[j].version <= answers[k].version)
    && (forall j | 0 <= j < k :: answers[j].version < answers[k].version)
  }

  lemma FirstNewestNext(answers: seq<Issue>, k: nat)
    requires answers != [] && FirstNewest(answers[..|answers| - 1], k)
    ensures FirstNewest(answers, if answers[|answers| - 1].version > answers[k].version then |answers| - 1 else k)
  {
    forall j | 0 <= j < |answers| - 1 ensures answers[j] == answers[..|answers| - 1][j] {}
  }

  /** In whatever order pushes are answered, what is remembered of an item is the first
      answer with the greatest version, and nothing else changes. */
  lemma {:induction false} RemembersNewest(pushed: map<nat, Pushed>, item: nat, answers: seq<Issue>) returns (k: nat)
    requires item !in pushed && answers != []
    ensures var r := RememberedAll(pushed, item, answers);
            && FirstNewest(answers, k) && item in r && r - {item} == pushed
            && r[item] == Pushed(answers[k].version, ContentOf(answers[k]))
  {
    var n := |answers| - 1;
    if n == 0 {
      assert RememberedAll(pushed, item, answers[..0]) == pushed;
      return 0;
    }
    k := RemembersNewest(pushed, item, answers[..n]);
    FirstNewestNext(answers, k);
    assert answers[..n][k] == answers[k];
    k := if answers[n].version > answers[k].version then n else k;
  }

  // ---- Whole runs ----

  /** edits counts the committed local edits, bumps the versions the loader has added in
      the tracker. */
  datatype World = World(issues: Issues, replies: map<nat, Issue>, tables: Tables, edits: nat, bumps: int)

  datatype Move =
    | LocalEdit(item: nat, notes: string, actor: string)
    | Arrive(src: Source, issue: Issue, newId: nat)
    | ElsewhereEdited(issues: Issues)
    | Consume(key: nat, ext: Option<string>, attempts: seq<Attempt>, maxAttempts: nat)

  ghost predicate Enabled(w: World, m: Move) {
    m.Consume? ==> m.key < |w.tables.outbox| && w.tables.outbox[m.key].kind == Updated
                   && LinkOf(w.tables.links, w.tables.outbox[m.key].item, m.ext)
  }

  function VersionAt(issues: Issues, id: string): int {
    if id in issues then issues[id].version else 0
  }

  function Next(system: string, o: Ownership, w: World, m: Move): World
    requires m.Consume? ==> m.key < |w.tables.outbox|
  {
    match m
    case LocalEdit(item, notes, actor) =>
      var r := NotesEdited(w.tables, item, notes, actor);
      if r.Some? then w.(tables := r.value, edits := w.edits + 1) else w
    case Arrive(src, issue, newId) => w.(tables := Inbound(system, o, w.tables, src, issue, newId).0)
    case ElsewhereEdited(issues) => w.(issues := issues)
    case Consume(key, ext, attempts, maxAttempts) =>
      var e := w.tables.outbox[key];
      var r := Handled(system, o, w.issues, w.replies, e, key, ext, attempts, maxAttempts);
      w.(issues := r.issues, replies := r.replies,
         tables := if r.ending.Reply? then w.tables.(pushed := Remembered(w.tables.pushed, e.item, r.ending.issue)) else w.tables,
         bumps := w.bumps + if ext.Some? then VersionAt(r.issues, ext.value) - VersionAt(w.issues, ext.value) else 0)
  }

  ghost predicate Possible(system: string, o: Ownership, w: World, moves: seq<Move>)
    decreases moves
  {
    moves != [] ==> Enabled(w, moves[0]) && Possible(system, o, Next(system, o, w, moves[0]), moves[1..])
  }

  ghost function Run(system: string, o: Ownership, w: World, moves: seq<Move>): World
    requires Possible(system, o, w, moves)
    decreases moves
  {
    if moves == [] then w else Run(system, o, Next(system, o, w, moves[0]), moves[1..])
  }

  /** The events that are not the tracker's own. */
  function Local(system: string, outbox: seq<Event>): set<nat> {
    set k: nat | k < |outbox| && outbox[k].actor != OriginActor(system)
  }

  ghost predicate NoFeedback(system: string, w: World) {
    && w.replies.Keys <= Local(system, w.tables.outbox)
    && w.bumps == |w.replies.Keys| && |Local(system, w.tables.outbox)| <= w.edits
  }

  lemma LocalGrows(system: string, outbox: seq<Event>, e: Event)
    ensures Local(system, outbox + [e]) == if e.actor != OriginActor(system) then Local(system, outbox) + {|outbox|} else Local(system, outbox)
  {
  }

  lemma ConsumeNoFeedback(system: string, o: Ownership, w: World, m: Move)
    requires NoFeedback(system, w) && Enabled(w, m) && m.Consume?
    ensures NoFeedback(system, Next(system, o, w, m))
  {
    var w', e := Next(system, o, w, m), w.tables.outbox[m.key];
    if PushedOut(system, o, e, m.ext) {
      PushesOnce(w.issues, w.replies, m.ext.value, PatchFor(o, e.content), m.key, m.attempts, m.maxAttempts);
      assert m.key in w'.replies && m.key !in w.replies ==> w'.replies.Keys == w.replies.Keys + {m.key};
    }
  }

  lemma StepNoFeedback(system: string, o: Ownership, w: World, m: Move)
    requires NoFeedback(system, w) && Enabled(w, m)
    ensures NoFeedback(system, Next(system, o, w, m))
  {
    var w' := Next(system, o, w, m);
    match m
    case LocalEdit(item, notes, actor) =>
      if NotesEdited(w.tables, item, notes, actor).Some? {
        LocalGrows(system, w.tables.outbox, w'.tables.outbox[|w.tables.outbox|]);
      }
    case Arrive(_, _, _) =>
      if w'.tables.outbox != w.tables.outbox {
        LocalGrows(system, w.tables.outbox, w'.tables.outbox[|w.tables.outbox|]);
      }
    case ElsewhereEdited(_) =>
    case Consume(_, _, _, _) => ConsumeNoFeedback(system, o, w, m);
  }

  lemma {:induction false} RunNoFeedback(system: string, o: Ownership, w: World, moves: seq<Move>)
    requires NoFeedback(system, w) && Possible(system, o, w, moves)
    ensures NoFeedback(system, Run(system, o, w, moves))
    decreases moves
  {
    if moves != [] {
      StepNoFeedback(system, o, w, moves[0]);
      RunNoFeedback(system, o, Next(system, o, w, moves[0]), moves[1..]);
    }
  }

  /** No sync feedback: whatever is redelivered, retried, polled or hooked, the loader
      adds at most one version for each committed local edit, and none for anything the
      tracker itself caused. */
  lemma AtMostOneVersionPerEdit(system: string, o: Ownership, w: World, moves: seq<Move>)
    requires w.replies == map[] && w.tables.outbox == [] && w.edits == 0 && w.bumps == 0
    requires Possible(system, o, w, moves)
    ensures var w' := Run(system, o, w, moves);
            0 <= w'.bumps <= |Local(system, w'.tables.outbox)| <= w'.edits
  {
    assert NoFeedback(system, w) by { assert Local(system, w.tables.outbox) == {}; }
    RunNoFeedback(system, o, w, moves);
    var w' := Run(system, o, w, moves);
    SubsetSmaller(w'.replies.Keys, Local(system, w'.tables.outbox));
  }
}
