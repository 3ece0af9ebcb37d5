/** Every run of the seat statements, under a clock that only moves forward:
    who a seat's current grant belongs to, and that a sale is final. */
module Fencing {
  import opened Wrappers
  import opened EventSeats

  /** One committed transaction, or the clock. Acquire and Confirm are all or
      nothing; Release and Extend take whatever rows match. */
  datatype Step =
    | Tick(dt: nat)
    | Acquire(event: int, seats: seq<int>, hold: HoldId, user: string, ttl: int)
    | Release(event: int, seats: seq<int>, hold: HoldId)
    | Extend(event: int, seats: seq<int>, hold: HoldId, secs: int)
    | Confirm(event: int, seats: seq<int>, fences: seq<int>, hold: HoldId, order: OrderId)

  /** What a step did to one seat, written down as the step happens. */
  datatype Deed =
    | Granted(hold: HoldId, fence: nat, until: Time)
    | Prolonged(until: Time)
    | Freed
    | Sold(order: OrderId)

  datatype World = World(table: Table, now: Time)

  ghost predicate WellFormed(step: Step) {
    step.Confirm? ==> |step.seats| == |step.fences|
  }

  function Next(w: World, step: Step): World
    requires WellFormed(step)
  {
    match step
    case Tick(dt) => w.(now := w.now + dt)
    case Acquire(event, seats, hold, user, ttl) => w.(table := AcquireTx(w.table, event, seats, hold, user, w.now, ttl).table)
    case Release(event, seats, hold) => w.(table := ReleaseTx(w.table, event, seats, hold).table)
    case Extend(event, seats, hold, secs) => w.(table := Extended(w.table, event, seats, hold, w.now, secs))
    case Confirm(event, seats, fences, hold, order) => w.(table := ConfirmTx(w.table, event, seats, fences, hold, order, w.now).table)
  }

  function Run(w: World, steps: seq<Step>): World
    requires forall i | 0 <= i < |steps| :: WellFormed(steps[i])
  {
    if steps == [] then w else Next(Run(w, steps[..|steps| - 1]), steps[|steps| - 1])
  }

  /** Read off from the outside: what the step returned or committed for the seat. */
  function DeedOf(w: World, step: Step, k: Key): Option<Deed>
    requires WellFormed(step) && k in w.table
  {
    var r := w.table[k];
    match step
    case Tick(_) => None
    case Acquire(event, seats, hold, _, ttl) =>
      if AcquireCount(w.table, event, seats, w.now) == |seats| && Listed(k, event, seats)
      then Some(Granted(hold, r.fence + 1, w.now + ttl)) else None
    case Release(event, seats, hold) =>
      if ReleaseHits(w.table, event, seats, hold, k) then Some(Freed) else None
    case Extend(event, seats, hold, secs) =>
      if ExtendHits(w.table, event, seats, hold, w.now, k) then Some(Prolonged(w.now + secs)) else None
    case Confirm(event, seats, fences, hold, order) =>
      if ConfirmCount(w.table, event, seats, fences, hold, w.now) == |seats| && Listed(k, event, seats)
      then Some(Sold(order)) else None
  }

  /** A seat's deeds over a run, oldest first. */
  function Deeds(w: World, steps: seq<Step>, k: Key): seq<Deed>
    requires forall i | 0 <= i < |steps| :: WellFormed(steps[i])
    requires k in w.table
  {
    if steps == [] then []
    else
      var init := steps[..|steps| - 1];
      KeysStay(w, init);
      match DeedOf(Run(w, init), steps[|steps| - 1], k)
      case None => Deeds(w, init, k)
      case Some(d) => Deeds(w, init, k) + [d]
  }

  lemma {:induction false} KeysStay(w: World, steps: seq<Step>)
    requires forall i | 0 <= i < |steps| :: WellFormed(steps[i])
    ensures Run(w, steps).table.Keys == w.table.Keys
  {
    if steps != [] { KeysStay(w, steps[..|steps| - 1]); }
  }

  datatype Grant = Grant(hold: HoldId, fence: nat, until: Time)

  /** The grant of the latest acquire, with its extensions, unless the seat has
      been released or sold since. */
  function Current(deeds: seq<Deed>): Option<Grant> {
    if deeds == [] then None
    else match deeds[|deeds| - 1]
      case Granted(hold, fence, until) => Some(Grant(hold, fence, until))
      case Prolonged(until) =>
        (match Current(deeds[..|deeds| - 1])
         case None => None
         case Some(g) => Some(g.(until := if g.until < until then until else g.until)))
      case Freed => None
      case Sold(_) => None
  }

  function Buyer(deeds: seq<Deed>): Option<OrderId> {
    if deeds == [] then None
    else if deeds[|deeds| - 1].Sold? then Some(deeds[|deeds| - 1].order)
    else Buyer(deeds[..|deeds| - 1])
  }

  /** What the latest deed leaves a seat as. */
  function StatusAfter(deeds: seq<Deed>): int {
    if deeds == [] then AVAILABLE
    else match deeds[|deeds| - 1]
      case Granted(_, _, _) => HELD
      case Prolonged(_) => PENDING_PAYMENT
      case Freed => AVAILABLE
      case Sold(_) => BOOKED
  }

  /** A published event's table before anyone has touched it. */
  ghost predicate Untouched(t: Table) {
    forall k | k in t :: t[k].status == AVAILABLE && t[k].fence == 0
  }

  /** The row says no more and no less than the seat's deeds. */
  ghost predicate Agrees(r: Row, deeds: seq<Deed>) {
    && (match Current(deeds)
        case None => !OnHold(r)
        case Some(g) => OnHold(r) && r.hold == Some(g.hold) && r.fence == g.fence && r.expires == Some(g.until))
    && (match Buyer(deeds)
        case None => r.status != BOOKED
        case Some(o) => r.status == BOOKED && r.booking == Some(o))
    && r.status == StatusAfter(deeds) && (OnHold(r) ==> r.sellable)
    && (forall i | 0 <= i < |deeds| && deeds[i].Granted? :: deeds[i].fence <= r.fence)
    && (forall i, j | 0 <= i < j < |deeds| && deeds[i].Granted? && deeds[j].Granted? :: deeds[i].fence < deeds[j].fence)
    && (forall i, j | 0 <= i < j < |deeds| && deeds[i].Sold? :: !deeds[j].Sold?)
  }

  lemma StepAgrees(w: World, step: Step, k: Key, deeds: seq<Deed>)
    requires WellFormed(step) && k in w.table && Agrees(w.table[k], deeds)
    ensures Agrees(Next(w, step).table[k],
                   match DeedOf(w, step, k) case None => deeds case Some(d) => deeds + [d])
  {
    match DeedOf(w, step, k)
    case None =>
      UnlistedUnchanged(w, step, k);
    case Some(d) =>
      assert (deeds + [d])[..|deeds|] == deeds;
      ListedChanges(w, step, k);
      BuyerNeedsSale(deeds);
  }

  /** A seat a step did nothing to keeps its row. */
  lemma UnlistedUnchanged(w: World, step: Step, k: Key)
    requires WellFormed(step) && k in w.table && DeedOf(w, step, k) == None
    ensures Next(w, step).table[k] == w.table[k]
  {
    if step.Confirm? && ConfirmHits(w.table, step.event, step.seats, step.fences, step.hold, w.now, k) {
      assert Listed(k, step.event, step.seats);
    }
  }

  /** A seat a step did something to satisfied that step's row guard. */
  lemma ListedChanges(w: World, step: Step, k: Key)
    requires WellFormed(step) && k in w.table && DeedOf(w, step, k).Some?
    ensures var r, r' := w.table[k], Next(w, step).table[k];
            match DeedOf(w, step, k).value
            case Granted(hold, fence, until) =>
              Holdable(r, w.now) && step.Acquire? && r' == HeldRow(r, hold, step.user, until) && fence == r.fence + 1
            case Prolonged(until) => step.Extend? && Extendable(r, step.hold, w.now) && r' == ExtendedRow(r, until)
            case Freed => step.Release? && Releasable(r, step.hold) && r' == FreedRow(r)
            case Sold(order) => step.Confirm? && Confirmable(r, step.hold, r.fence, w.now) && r' == BookedRow(r, order)
  {
    if step.Acquire? {
      AcquireAllOrNothing(w.table, step.event, step.seats, w.now);
      assert k == Key(step.event, k.seat);
    }
    if step.Confirm? {
      ConfirmAllOrNothing(w.table, step.event, step.seats, step.fences, step.hold, w.now);
      var i :| 0 <= i < |step.seats| && step.seats[i] == k.seat;
      assert k == Key(step.event, step.seats[i]);
      assert FenceOffered(step.seats, step.fences, k.seat, w.table[k].fence);
    }
  }

  lemma {:induction false} BuyerNeedsSale(deeds: seq<Deed>)
    ensures Buyer(deeds) == None <==> forall i | 0 <= i < |deeds| :: !deeds[i].Sold?
  {
    if deeds != [] { BuyerNeedsSale(deeds[..|deeds| - 1]); }
  }

  lemma {:induction false} RunAgrees(w: World, steps: seq<Step>, k: Key)
    requires forall i | 0 <= i < |steps| :: WellFormed(steps[i])
    requires k in w.table && Untouched(w.table)
    ensures k in Run(w, steps).table
    ensures Agrees(Run(w, steps).table[k], Deeds(w, steps, k))
  {
    if steps != [] {
      var init := steps[..|steps| - 1];
      RunAgrees(w, init, k);
      StepAgrees(Run(w, init), steps[|steps| - 1], k, Deeds(w, init, k));
    }
  }

  /** Fence exactness: in every run, a confirm with this hold and fence matches the
      seat exactly when they are those of the seat's latest acquire, not released,
      not sold, and not expired. */
  lemma ConfirmMatchesLatestGrant(w: World, steps: seq<Step>, k: Key, hold: HoldId, fence: int)
    requires forall i | 0 <= i < |steps| :: WellFormed(steps[i])
    requires k in w.table && Untouched(w.table)
    ensures var w', c := Run(w, steps), Current(Deeds(w, steps, k));
            k in w'.table
            && (Confirmable(w'.table[k], hold, fence, w'.now)
                <==> c.Some? && c.value.hold == hold && c.value.fence == fence && c.value.until > w'.now)
  {
    RunAgrees(w, steps, k);
  }

  /** The other statements' guards, in every run: a release or an extension takes a seat
      exactly from the hold of its latest acquire, an extension only before it expires, and
      an acquire takes a sellable seat exactly when nobody bought it and no grant of it
      stands or the one that does has expired. */
  lemma GuardsFollowDeeds(w: World, steps: seq<Step>, k: Key, hold: HoldId)
    requires forall i | 0 <= i < |steps| :: WellFormed(steps[i])
    requires k in w.table && Untouched(w.table)
    ensures k in Run(w, steps).table
    ensures var r, now, deeds := Run(w, steps).table[k], Run(w, steps).now, Deeds(w, steps, k);
            var c := Current(deeds);
            && (Releasable(r, hold) <==> c.Some? && c.value.hold == hold)
            && (Extendable(r, hold, now) <==> c.Some? && c.value.hold == hold && c.value.until > now)
            && (Holdable(r, now) <==> r.sellable && Buyer(deeds).None? && (c.Some? ==> c.value.until < now))
  {
    RunAgrees(w, steps, k);
  }

  /** In every run a seat's status says what was last done to it: freed or never touched,
      held, extended for a payment, or sold. */
  lemma StatusIsLatestDeed(w: World, steps: seq<Step>, k: Key)
    requires forall i | 0 <= i < |steps| :: WellFormed(steps[i])
    requires k in w.table && Untouched(w.table)
    ensures k in Run(w, steps).table && Run(w, steps).table[k].status == StatusAfter(Deeds(w, steps, k))
  {
    RunAgrees(w, steps, k);
  }

  /** No fence is ever issued twice for a seat, so a superseded grant never confirms. */
  lemma SupersededNeverConfirms(w: World, steps: seq<Step>, k: Key, i: nat, j: nat)
    requires forall i | 0 <= i < |steps| :: WellFormed(steps[i])
    requires k in w.table && Untouched(w.table)
    requires i < j < |Deeds(w, steps, k)|
    requires Deeds(w, steps, k)[i].Granted? && Deeds(w, steps, k)[j].Granted?
    ensures k in Run(w, steps).table
    ensures !Confirmable(Run(w, steps).table[k], Deeds(w, steps, k)[i].hold, Deeds(w, steps, k)[i].fence,
                         Run(w, steps).now)
  {
    RunAgrees(w, steps, k);
  }

  /** One seat, two contenders: the old holder's confirm and a new acquire are never
      both possible, and at the very instant of expiry neither is. */
  lemma NeverBothEnabled(r: Row, hold: HoldId, fence: int, now: Time)
    ensures !(Confirmable(r, hold, fence, now) && Holdable(r, now))
    ensures OnHold(r) && r.expires == Some(now) ==> !Confirmable(r, hold, fence, now) && !Holdable(r, now)
  {
  }

  /** A sale is final: whatever happens next, the seat stays booked to its order. */
  lemma {:induction false} SaleIsFinal(w: World, steps: seq<Step>, k: Key, order: OrderId)
    requires forall i | 0 <= i < |steps| :: WellFormed(steps[i])
    requires k in w.table && w.table[k].status == BOOKED && w.table[k].booking == Some(order)
    ensures k in Run(w, steps).table && Run(w, steps).table[k] == w.table[k]
  {
    if steps != [] {
      var init, step := steps[..|steps| - 1], steps[|steps| - 1];
      SaleIsFinal(w, init, k, order);
      var w' := Run(w, init);
      if DeedOf(w', step, k).Some? { ListedChanges(w', step, k); } else { UnlistedUnchanged(w', step, k); }
    }
  }

  /** No seat is sold twice in any run. */
  lemma SoldOnce(w: World, steps: seq<Step>, k: Key, i: nat, j: nat)
    requires forall i | 0 <= i < |steps| :: WellFormed(steps[i])
    requires k in w.table && Untouched(w.table)
    requires i < |Deeds(w, steps, k)| && j < |Deeds(w, steps, k)|
    requires Deeds(w, steps, k)[i].Sold? && Deeds(w, steps, k)[j].Sold?
    ensures i == j
  {
    RunAgrees(w, steps, k);
  }

  /** The table's constraints: a held seat has a hold and an expiry, a booked one a
      booking; and what the statements add: its holder, and the price it was held at, which
      a booked seat keeps. */
  predicate RowConstraints(r: Row) {
    && (OnHold(r) ==> r.hold.Some? && r.expires.Some? && r.heldBy.Some? && r.holdPrice == Some(r.price))
    && (r.status == BOOKED ==> r.booking.Some? && r.hold == None && r.heldBy == None && r.expires == None
                                && r.holdPrice == Some(r.price))
    && (r.status == AVAILABLE ==> r.hold == None && r.heldBy == None && r.expires == None && r.holdPrice == None)
  }

  /** No run of the statements can violate them. */
  lemma {:induction false} RunKeepsConstraints(w: World, steps: seq<Step>, k: Key)
    requires forall i | 0 <= i < |steps| :: WellFormed(steps[i])
    requires k in w.table && RowConstraints(w.table[k])
    ensures k in Run(w, steps).table && RowConstraints(Run(w, steps).table[k])
  {
    if steps != [] {
      var init, step := steps[..|steps| - 1], steps[|steps| - 1];
      RunKeepsConstraints(w, init, k);
      var w' := Run(w, init);
      if DeedOf(w', step, k).Some? { ListedChanges(w', step, k); } else { UnlistedUnchanged(w', step, k); }
    }
  }
}
