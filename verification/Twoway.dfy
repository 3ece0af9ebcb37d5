/** Inbound sync: one external issue applied to the work item linked to it, gated on
    the issue's version and merged field by field. */
module Twoway {
  import opened Wrappers
  import opened MockJira

  datatype Field = Title | Status | Notes
  datatype Owner = Internal | External

  /** Which system is the source of truth per field; a field not listed is internal. */
  type Ownership = map<Field, Owner>

  predicate ExternalOwns(o: Ownership, f: Field) {
    f in o && o[f] == External
  }

  datatype Content = Content(title: string, status: string, notes: string)

  function Part(c: Content, f: Field): string {
    match f case Title => c.title case Status => c.status case Notes => c.notes
  }

  function ContentOf(i: Issue): Content {
    Content(i.summary, i.status, i.description)
  }

  datatype WorkItem = WorkItem(content: Content, deleted: bool)

  datatype Link = Link(item: nat, version: int)

  /** The hash of a content is taken as the content itself. */
  datatype Pushed = Pushed(version: int, content: Content)

  datatype EventKind = Updated | Deleted
  datatype Event = Event(kind: EventKind, item: nat, actor: string, content: Content, deleted: bool)

  /** The tables of one external system. An event's id is its place in the outbox. */
  datatype Tables = Tables(links: map<string, Link>, items: map<nat, WorkItem>, pushed: map<nat, Pushed>, outbox: seq<Event>)

  datatype Source = Webhook | Poll
  datatype Outcome = Applied | IgnoredStale | Conflict | Echo

  function OriginActor(system: string): string {
    "system:" + system
  }

  // ---- Ownership ----

  function Picked(o: Ownership, f: Field, current: Content, incoming: Content): string {
    if ExternalOwns(o, f) then Part(incoming, f) else Part(current, f)
  }

  function Rejected(o: Ownership, f: Field, current: Content, incoming: Content): seq<Field> {
    if !ExternalOwns(o, f) && Part(incoming, f) != Part(current, f) then [f] else []
  }

  function Merge(o: Ownership, current: Content, incoming: Content): (r: (Content, seq<Field>))
    ensures forall f :: Part(r.0, f) == Part(if ExternalOwns(o, f) then incoming else current, f)
    ensures forall f :: f in r.1 <==> !ExternalOwns(o, f) && Part(incoming, f) != Part(current, f)
  {
    (Content(Picked(o, Title, current, incoming), Picked(o, Status, current, incoming), Picked(o, Notes, current, incoming)),
     Rejected(o, Title, current, incoming) + Rejected(o, Status, current, incoming) + Rejected(o, Notes, current, incoming))
  }

  function Offer(o: Ownership, f: Field, c: Content): Option<string> {
    if ExternalOwns(o, f) then None else Some(Part(c, f))
  }

  function PatchFor(o: Ownership, c: Content): Patch {
    Patch(Offer(o, Title, c), Offer(o, Status, c), Offer(o, Notes, c))
  }

  predicate EmptyPatch(p: Patch) {
    p.summary.None? && p.status.None? && p.description.None?
  }

  /** What is pushed out and comes back merges to what it was: the two directions never
      write the same field. */
  lemma PushThenMerge(o: Ownership, c: Content, i: Issue, now: Time)
    ensures forall f :: f !in Merge(o, c, ContentOf(Changed(i, PatchFor(o, c), now))).1
    ensures forall f | ExternalOwns(o, f) :: Part(ContentOf(Changed(i, PatchFor(o, c), now)), f) == Part(ContentOf(i), f)
  {
    forall f ensures !ExternalOwns(o, f) ==> Part(ContentOf(Changed(i, PatchFor(o, c), now)), f) == Part(c, f) {
      match f case Title => case Status => case Notes =>
    }
  }

  // ---- Applying one issue ----

  function Resolved(links: map<string, Link>, id: string, newId: nat): map<string, Link> {
    if id in links then links else links[id := Link(newId, 0)]
  }

  predicate IsEcho(t: Tables, item: nat, i: Issue) {
    item in t.pushed && t.pushed[item].version == i.version && t.pushed[item].content == ContentOf(i)
  }

  function Published(system: string, item: nat, c: Content, deleted: bool): Event {
    Event(if deleted then Deleted else Updated, item, OriginActor(system), c, deleted)
  }

  function Merged(o: Ownership, items: map<nat, WorkItem>, item: nat, i: Issue): (Content, seq<Field>) {
    if item in items then Merge(o, items[item].content, ContentOf(i)) else (ContentOf(i), [])
  }

  /** The row, version and event one newer version of an issue writes. */
  function Written(system: string, o: Ownership, t: Tables, item: nat, i: Issue): Tables {
    var row := WorkItem(Merged(o, t.items, item, i).0, i.deleted);
    Tables(t.links[i.id := Link(item, i.version)], t.items[item := row], t.pushed,
           if item in t.items && t.items[item] == row then t.outbox
           else t.outbox + [Published(system, item, row.content, i.deleted)])
  }

  function Inbound(system: string, o: Ownership, t: Tables, src: Source, i: Issue, newId: nat): (Tables, Outcome) {
    var t1 := t.(links := Resolved(t.links, i.id, newId));
    var item := t1.links[i.id].item;
    if src == Webhook && IsEcho(t1, item, i) then (t1, Echo)
    else if t1.links[i.id].version >= i.version then (t1, IgnoredStale)
    else (Written(system, o, t1, item, i), if Merged(o, t.items, item, i).1 != [] then Conflict else Applied)
  }

  /** A local edit of the notes, with its event; refused for a missing or deleted item. */
  function NotesEdited(t: Tables, item: nat, notes: string, actor: string): Option<Tables> {
    if item in t.items && !t.items[item].deleted then
      var c := t.items[item].content.(notes := notes);
      Some(t.(items := t.items[item := WorkItem(c, false)], outbox := t.outbox + [Event(Updated, item, actor, c, false)]))
    else None
  }

  class Store {
    const system: string
    const ownership: Ownership
    var links: map<string, Link>
    var items: map<nat, WorkItem>
    var pushed: map<nat, Pushed>
    var outbox: seq<Event>

    constructor (system: string, ownership: Ownership)
      ensures this.system == system && this.ownership == ownership && View() == Tables(map[], map[], map[], [])
    {
      this.system, this.ownership := system, ownership;
      links, items, pushed, outbox := map[], map[], map[], [];
    }

    function View(): Tables
      reads this
    {
      Tables(links, items, pushed, outbox)
    }

    method ResolveInternalId(id: string, newId: nat) returns (item: nat)
      modifies this`links
      ensures links == Resolved(old(links), id, newId) && item == links[id].item
    {
      if id !in links { links := links[id := Link(newId, 0)]; }
      item := links[id].item;
    }

    /** True, and the link moved on, only for a strictly newer version. */
    method AdvanceLinkVersion(id: string, version: int) returns (moved: bool)
      requires id in links
      modifies this`links
      ensures moved <==> old(links)[id].version < version
      ensures links == if moved then old(links)[id := old(links)[id].(version := version)] else old(links)
    {
      moved := links[id].version < version;
      if moved { links := links[id := links[id].(version := version)]; }
    }

    method Apply(src: Source, i: Issue, newId: nat) returns (outcome: Outcome)
      modifies this`links, this`items, this`outbox
      ensures (View(), outcome) == Inbound(system, ownership, old(View()), src, i, newId)
    {
      var item := ResolveInternalId(i.id, newId);
      if src == Webhook {
        if item in pushed && pushed[item].version == i.version && pushed[item].content == ContentOf(i) { return Echo; }
      }
      var moved := AdvanceLinkVersion(i.id, i.version);
      if !moved { return IgnoredStale; }
      var exists_ := item in items;
      var merged, rejected := ContentOf(i), [];
      if exists_ {
        var both := Merge(ownership, items[item].content, ContentOf(i));
        merged, rejected := both.0, both.1;
      }
      var changed := !exists_ || merged != items[item].content || i.deleted != items[item].deleted;
      items := items[item := WorkItem(merged, i.deleted)];
      if changed { outbox := outbox + [Published(system, item, merged, i.deleted)]; }
      outcome := if |rejected| > 0 then Conflict else Applied;
    }

    method EditNotes(item: nat, notes: string, actor: string) returns (found: bool)
      modifies this`items, this`outbox
      ensures found <==> NotesEdited(old(View()), item, notes, actor).Some?
      ensures View() == if found then NotesEdited(old(View()), item, notes, actor).value else old(View())
    {
      if item !in items || items[item].deleted { return false; }
      items := items[item := items[item].(content := items[item].content.(notes := notes))];
      outbox := outbox + [Event(Updated, item, actor, items[item].content, false)];
      return true;
    }
  }

  /** No inbound apply changes an internally owned field of an item that exists, nor
      any other item at all. */
  lemma InternalFieldsKept(system: string, o: Ownership, t: Tables, src: Source, i: Issue, newId: nat, item: nat)
    requires item in t.items
    ensures var t' := Inbound(system, o, t, src, i, newId).0;
            item in t'.items
            && (forall f | !ExternalOwns(o, f) :: Part(t'.items[item].content, f) == Part(t.items[item].content, f))
            && (t'.items[item] != t.items[item] ==> i.id in t'.links && t'.links[i.id].item == item)
  {
  }

  /** The recorded version never goes back, and a poll always brings it up to the issue's. */
  lemma VersionRecorded(system: string, o: Ownership, t: Tables, src: Source, i: Issue, newId: nat, id: string)
    ensures var t' := Inbound(system, o, t, src, i, newId).0;
            && (id in t.links ==> id in t'.links && t'.links[id].version >= t.links[id].version && t'.links[id].item == t.links[id].item)
            && (src == Poll ==> i.id in t'.links && t'.links[i.id].version >= i.version)
  {
  }

  /** The event tells what is now in the row, and whose change it was. */
  ghost predicate Announces(system: string, e: Event, item: nat, row: WorkItem) {
    && e.item == item && e.actor == OriginActor(system) && e.content == row.content && e.deleted == row.deleted
    && (e.kind == Deleted <==> row.deleted)
  }

  /** An inbound apply is announced exactly when it changed something: one event when the
      issue's item is new or its row is not what it was, and none otherwise. */
  lemma ChangesAreAnnounced(system: string, o: Ownership, t: Tables, src: Source, i: Issue, newId: nat)
    ensures var t' := Inbound(system, o, t, src, i, newId).0;
            && i.id in t'.links
            && var item := t'.links[i.id].item;
               if item in t'.items && (item !in t.items || t'.items[item] != t.items[item]) then
                 |t'.outbox| == |t.outbox| + 1 && t'.outbox[..|t.outbox|] == t.outbox
                 && Announces(system, t'.outbox[|t.outbox|], item, t'.items[item])
               else t'.outbox == t.outbox && t'.items == t.items
  {
  }

  predicate Moves(outcome: Outcome) {
    outcome.Applied? || outcome.Conflict?
  }

  /** What the outcome says, from the tables before and after: an echo is the webhook of what
      was pushed last, stale is whatever else is not newer than the recorded version, and
      neither changes anything but the link of an issue never seen. */
  lemma OutcomeMeans(system: string, o: Ownership, t: Tables, src: Source, i: Issue, newId: nat)
    ensures var (t', outcome) := Inbound(system, o, t, src, i, newId);
            var known := if i.id in t.links then t.links[i.id].version else 0;
            && i.id in t'.links && t'.pushed == t.pushed
            && var item := t'.links[i.id].item;
               && (outcome == Echo <==>
                     src == Webhook && item in t.pushed && t.pushed[item] == Pushed(i.version, ContentOf(i)))
               && (Moves(outcome) <==> outcome != Echo && known < i.version)
               && t'.links[i.id].version == (if Moves(outcome) then i.version else known)
               && (if Moves(outcome) then item in t'.items && RowMerged(o, t, item, i, t'.items[item])
                   else t'.items == t.items && t'.outbox == t.outbox)
  {
  }

  /** The row has each field from its owner, every field of an item never seen from the
      issue, and the issue's deleted flag. */
  ghost predicate RowMerged(o: Ownership, t: Tables, item: nat, i: Issue, row: WorkItem) {
    && row.deleted == i.deleted
    && forall f :: Part(row.content, f)
                   == Part(if item in t.items && !ExternalOwns(o, f) then t.items[item].content else ContentOf(i), f)
  }

  /** A local edit writes the notes of an item that is there and not deleted, nothing else,
      and one event that tells the whole row and who edited it. */
  lemma EditsAreAnnounced(t: Tables, item: nat, notes: string, actor: string)
    ensures var r := NotesEdited(t, item, notes, actor);
            && (r.Some? <==> item in t.items && !t.items[item].deleted)
            && (r.Some? ==>
                  var row := WorkItem(t.items[item].content.(notes := notes), false);
                  && r.value.links == t.links && r.value.pushed == t.pushed && r.value.items == t.items[item := row]
                  && |r.value.outbox| == |t.outbox| + 1 && r.value.outbox[..|t.outbox|] == t.outbox
                  && var e := r.value.outbox[|t.outbox|];
                     e.kind == Updated && e.item == item && e.actor == actor && e.content == row.content && !e.deleted)
  {
  }

  /** A newer version conflicts exactly when it disagrees with an internally owned field of
      an item that is already here. */
  lemma ConflictIff(system: string, o: Ownership, t: Tables, src: Source, i: Issue, newId: nat)
    requires Moves(Inbound(system, o, t, src, i, newId).1)
    ensures var (t', outcome) := Inbound(system, o, t, src, i, newId);
            var item := t'.links[i.id].item;
            outcome == Conflict <==>
              item in t.items
              && exists f :: !ExternalOwns(o, f) && Part(t.items[item].content, f) != Part(ContentOf(i), f)
  {
    var item := Resolved(t.links, i.id, newId)[i.id].item;
    if item in t.items {
      var rejected := Merge(o, t.items[item].content, ContentOf(i)).1;
      if rejected != [] { assert rejected[0] in rejected; }
    }
  }

  // ---- One issue's history ----

  datatype Act =
    | Deliver(src: Source, version: int, newId: nat)
    | Edit(item: nat, notes: string, actor: string)

  /** The versions an issue has had, each with its content. */
  type Versions = map<int, Issue>

  ghost predicate Genuine(vs: Versions, id: string) {
    forall v | v in vs :: v >= 1 && vs[v].version == v && vs[v].id == id
  }

  ghost predicate Known(vs: Versions, acts: seq<Act>) {
    forall k | 0 <= k < |acts| && acts[k].Deliver? :: acts[k].version in vs
  }

  function Act1(system: string, o: Ownership, vs: Versions, t: Tables, a: Act): Tables
    requires a.Deliver? ==> a.version in vs
  {
    match a
    case Deliver(src, version, newId) => Inbound(system, o, t, src, vs[version], newId).0
    case Edit(item, notes, actor) =>
      var r := NotesEdited(t, item, notes, actor);
      if r.Some? then r.value else t
  }

  function History(system: string, o: Ownership, vs: Versions, t: Tables, acts: seq<Act>): Tables
    requires Known(vs, acts)
  {
    if acts == [] then t
    else Act1(system, o, vs, History(system, o, vs, t, acts[..|acts| - 1]), acts[|acts| - 1])
  }

  /** The newest version delivered, 0 when none was. */
  function Newest(acts: seq<Act>): int {
    if acts == [] then 0
    else
      var rest, a := Newest(acts[..|acts| - 1]), acts[|acts| - 1];
      if a.Deliver? && a.version > rest then a.version else rest
  }

  ghost predicate Delivered(acts: seq<Act>, version: int) {
    exists k :: 0 <= k < |acts| && acts[k].Deliver? && acts[k].version == version
  }

  lemma {:induction false} NewestIsMax(vs: Versions, id: string, acts: seq<Act>)
    requires Genuine(vs, id) && Known(vs, acts)
    ensures forall k | 0 <= k < |acts| && acts[k].Deliver? :: acts[k].version <= Newest(acts)
    ensures if Newest(acts) == 0 then forall k | 0 <= k < |acts| :: acts[k].Edit? else Delivered(acts, Newest(acts)) && Newest(acts) in vs
  {
    if acts != [] {
      var init := acts[..|acts| - 1];
      NewestIsMax(vs, id, init);
      if Newest(init) != 0 {
        var k :| 0 <= k < |init| && init[k].Deliver? && init[k].version == Newest(init);
        assert acts[k].version == Newest(init);
      }
    }
  }

  /** An issue nobody has heard of, whose future item ids are new and never pushed. */
  ghost predicate Unheard(t: Tables, id: string, acts: seq<Act>) {
    id !in t.links && forall k | 0 <= k < |acts| && acts[k].Deliver? :: acts[k].newId !in t.items && acts[k].newId !in t.pushed
  }

  /** The item the issue is linked to: the first delivery's new one. */
  function Linked(acts: seq<Act>): Option<nat> {
    if acts == [] then None
    else
      var before, a := Linked(acts[..|acts| - 1]), acts[|acts| - 1];
      if before.Some? then before else if a.Deliver? then Some(a.newId) else None
  }

  /** The edit reaches the issue's item, and the newest version delivered before it has
      not deleted that. */
  predicate Effective(vs: Versions, before: seq<Act>, a: Act) {
    a.Edit? && Linked(before) == Some(a.item) && Newest(before) in vs && !vs[Newest(before)].deleted
  }

  /** What the last effective edit wrote since the newest version first arrived, if there
      was one. */
  function LastEdit(vs: Versions, acts: seq<Act>): Option<string> {
    if acts == [] then None
    else
      var init, a := acts[..|acts| - 1], acts[|acts| - 1];
      if a.Deliver? && a.version > Newest(init) then None
      else if Effective(vs, init, a) then Some(a.notes)
      else LastEdit(vs, init)
  }

  /** No such edit, or one that wrote what the newest version says anyway. */
  ghost predicate NotesStand(vs: Versions, acts: seq<Act>)
    requires Newest(acts) in vs
  {
    LastEdit(vs, acts).Some? ==> LastEdit(vs, acts).value == vs[Newest(acts)].description
  }

  /** The item shows version v: its externally owned fields and its deleted flag. */
  ghost predicate Shows(o: Ownership, t: Tables, id: string, v: Issue, notesToo: bool) {
    && id in t.links && t.links[id].version == v.version && t.links[id].item in t.items
    && var row := t.items[t.links[id].item];
       row.deleted == v.deleted
       && forall f | ExternalOwns(o, f) && (f != Notes || notesToo) :: Part(row.content, f) == Part(ContentOf(v), f)
  }

  /** Where a history has brought the issue's item. */
  ghost predicate Reached(o: Ownership, vs: Versions, id: string, t0: Tables, t: Tables, acts: seq<Act>) {
    && t.pushed == t0.pushed
    && if Newest(acts) == 0 then id !in t.links && t.items.Keys == t0.items.Keys && Linked(acts) == None
       else Newest(acts) in vs && Linked(acts).Some? && Linked(acts).value !in t0.pushed
            && ShowsNotes(o, t, id, vs[Newest(acts)], Linked(acts).value, LastEdit(vs, acts))
  }

  /** The item shows version v but for externally owned notes, which the edit has if there
      was one. */
  ghost predicate ShowsNotes(o: Ownership, t: Tables, id: string, v: Issue, item: nat, edit: Option<string>) {
    && Shows(o, t, id, v, false) && t.links[id].item == item
    && (ExternalOwns(o, Notes) ==> t.items[item].content.notes == if edit.Some? then edit.value else v.description)
  }

  lemma DeliverReaches(system: string, o: Ownership, vs: Versions, id: string, t0: Tables, t: Tables, acts: seq<Act>)
    requires acts != [] && Genuine(vs, id) && Known(vs, acts) && Unheard(t0, id, acts) && acts[|acts| - 1].Deliver?
    requires Reached(o, vs, id, t0, t, acts[..|acts| - 1])
    ensures Reached(o, vs, id, t0, Act1(system, o, vs, t, acts[|acts| - 1]), acts)
  {
  }

  lemma EditReaches(system: string, o: Ownership, vs: Versions, id: string, t0: Tables, t: Tables, acts: seq<Act>)
    requires acts != [] && Genuine(vs, id) && Known(vs, acts) && Unheard(t0, id, acts) && acts[|acts| - 1].Edit?
    requires Reached(o, vs, id, t0, t, acts[..|acts| - 1])
    ensures Reached(o, vs, id, t0, Act1(system, o, vs, t, acts[|acts| - 1]), acts)
  {
  }

  lemma {:induction false} HistoryReaches(system: string, o: Ownership, vs: Versions, id: string, t: Tables,
                                          acts: seq<Act>)
    requires Genuine(vs, id) && Known(vs, acts) && Unheard(t, id, acts)
    ensures Reached(o, vs, id, t, History(system, o, vs, t, acts), acts)
  {
    if acts != [] {
      var init := acts[..|acts| - 1];
      HistoryReaches(system, o, vs, id, t, init);
      if acts[|acts| - 1].Deliver? {
        DeliverReaches(system, o, vs, id, t, History(system, o, vs, t, init), acts);
      } else {
        EditReaches(system, o, vs, id, t, History(system, o, vs, t, init), acts);
      }
    }
  }

  /** After any history the item shows the newest version delivered; of notes that are
      externally owned that holds exactly when no edit since that version first arrived
      has written another text over them. */
  lemma HistoryShowsNewest(system: string, o: Ownership, vs: Versions, id: string, t: Tables, acts: seq<Act>)
    requires Genuine(vs, id) && Known(vs, acts) && Unheard(t, id, acts)
    ensures Newest(acts) == 0 || Newest(acts) in vs
    ensures var t' := History(system, o, vs, t, acts);
            && t'.pushed == t.pushed
            && if Newest(acts) == 0 then id !in t'.links && t'.items.Keys == t.items.Keys
            else
              && Shows(o, t', id, vs[Newest(acts)], false) && t'.links[id].item !in t.pushed
              && (Shows(o, t', id, vs[Newest(acts)], true) <==> !ExternalOwns(o, Notes) || NotesStand(vs, acts))
  {
    HistoryReaches(system, o, vs, id, t, acts);
    if Newest(acts) != 0 {
      NotesDecide(o, History(system, o, vs, t, acts), id, vs[Newest(acts)], Linked(acts).value, LastEdit(vs, acts));
    }
  }

  lemma NotesDecide(o: Ownership, t: Tables, id: string, v: Issue, item: nat, edit: Option<string>)
    requires ShowsNotes(o, t, id, v, item, edit)
    ensures Shows(o, t, id, v, true) <==> !ExternalOwns(o, Notes) || (edit.Some? ==> edit.value == v.description)
  {
    var c := t.items[item].content;
    assert Part(c, Notes) == c.notes && Part(ContentOf(v), Notes) == v.description;
    assert forall f | f != Notes && ExternalOwns(o, f) :: Part(c, f) == Part(ContentOf(v), f);
  }

  lemma SameNewest(vs: Versions, id: string, a: seq<Act>, b: seq<Act>)
    requires Genuine(vs, id) && Known(vs, a) && Known(vs, b)
    requires forall v :: Delivered(a, v) <==> Delivered(b, v)
    requires exists v :: Delivered(a, v)
    ensures Newest(a) == Newest(b) && Newest(a) in vs
  {
    NewestIsMax(vs, id, a);
    NewestIsMax(vs, id, b);
    var v :| Delivered(a, v);
    var k :| 0 <= k < |a| && a[k].Deliver? && a[k].version == v;
    assert Delivered(b, v);
    var j :| 0 <= j < |b| && b[j].Deliver? && b[j].version == v;
    assert Newest(a) != 0 && Newest(b) != 0;
    assert Delivered(b, Newest(a)) && Delivered(a, Newest(b));
  }

  /** Inbound sync does not care about order: two histories that deliver the same
      versions of one issue, however reordered, repeated and interleaved with local
      edits, end with the same recorded version, deleted flag and externally owned
      fields, those of the newest version; of notes that are externally owned each does
      so exactly when its last edits let them stand. */
  lemma OrderInsensitive(system: string, o: Ownership, vs: Versions, id: string, t: Tables, a: seq<Act>, u: Tables,
                         b: seq<Act>)
    requires Genuine(vs, id) && Known(vs, a) && Known(vs, b) && Unheard(t, id, a) && Unheard(u, id, b)
    requires forall v :: Delivered(a, v) <==> Delivered(b, v)
    requires exists v :: Delivered(a, v)
    ensures Newest(a) == Newest(b) && Newest(a) in vs
    ensures var v, t', u' := vs[Newest(a)], History(system, o, vs, t, a), History(system, o, vs, u, b);
            && Shows(o, t', id, v, false) && Shows(o, u', id, v, false)
            && (Shows(o, t', id, v, true) <==> !ExternalOwns(o, Notes) || NotesStand(vs, a))
            && (Shows(o, u', id, v, true) <==> !ExternalOwns(o, Notes) || NotesStand(vs, b))
  {
    SameNewest(vs, id, a, b);
    HistoryShowsNewest(system, o, vs, id, t, a);
    HistoryShowsNewest(system, o, vs, id, u, b);
  }

  /** One such edit: notes that are externally owned and edited here after the last
      delivery keep the edit until the tracker's next version. */
  lemma EditOverridesExternalNotes(o: Ownership, t: Tables, id: string, v: Issue, notes: string, actor: string)
    requires ExternalOwns(o, Notes) && Shows(o, t, id, v, true) && !v.deleted
    ensures var r := NotesEdited(t, t.links[id].item, notes, actor);
            r.Some? && (Shows(o, r.value, id, v, true) <==> notes == v.description)
  {
    var t' := NotesEdited(t, t.links[id].item, notes, actor).value;
    assert Part(t'.items[t.links[id].item].content, Notes) == notes;
    if notes == v.description {
      forall f | ExternalOwns(o, f) ensures Part(t'.items[t.links[id].item].content, f) == Part(ContentOf(v), f) {
        assert Part(t.items[t.links[id].item].content, f) == Part(ContentOf(v), f);
      }
    }
  }
}
