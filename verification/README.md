# What is modelled

Verified models of the stateful cores of three programs that share one repository:

* **Ticket booking.** Seats are rows of `event_seats`, changed only by compare-and-set
  statements (`EventSeats.dfy`, `Fencing.dfy`) issued by the inventory service
  (`Inventory.dfy`, `Holdlock.dfy`, `BestAvailable.dfy`, `Sorting.dfy`). Every committed
  transaction leaves outbox events, from which a projector keeps a packed bitset, a
  sequence number and a ring of 200 deltas per event (`Seatmap.dfy`, `Wsproto.dfy`,
  `ReadModel.dfy`, `Projector.dfy`). The path from the table through the outbox to the
  bitset is a machine (`Drain.dfy`) with theorems about its every run (`DrainRuns.dfy`,
  `DrainFaults.dfy`, `DrainStale.dfy`, `DrainFills.dfy`). Checkouts are sagas over seats
  and money (`Saga.dfy`, `SagaRuns.dfy`, `SagaPaths.dfy`, `SagaProgress.dfy`,
  `SagaUndisturbed.dfy`, `SagaFaults.dfy`, `SagaCrashes.dfy`, `SagaWindows.dfy`,
  `SagaOutcomes.dfy`, `SagaSeats.dfy`, `Payment.dfy`). The static seating plan is built by
  one walk (`Layout.dfy`, `SeatsBin.dfy`).
* **Field sync.** Work items kept in step with an external tracker in both directions
  (`MockJira.dfy`, `Twoway.dfy`, `Extractor.dfy`, `Outbound.dfy`), batches from offline
  clients merged by last write wins (`LwwSync.dfy`), and two guards of the GraphQL server
  (`Limits.dfy`, `DataLoader.dfy`).
* **Ordered locking**, from the concurrency examples (`OrderedLocking.dfy`).

Objects that the programs update in place are classes, each method proved against a
function of the old state; protocols in which several parties interleave are step
machines, one atomic statement, transaction or locked section a step, and their results
are stated for every run. `Bytes.dfy`, `Sets.dfy` and `Wrappers.dfy` are shared.

Six claims that look obvious are false of the code. Each has an input that fails it and
the exact condition under which it does hold:

* A release publishes `seat.released` for every listed seat once any row matched. The
  read model stays right exactly when every listed seat was either released or already
  free (`DrainFaults.ReleaseKeepsDisplayIffHonest`); a stale list hides a sale in a run from
  a published event (`DrainStale.StaleReleaseHidesSale`).
* A failed mark lets an old event be applied again after newer ones. A later pass over the
  unmarked rows of a batch is harmless exactly when, for each seat of the pass, the last
  row retried has the state of the batch's last (`ReadModel.ReplayHarmlessIff`); once
  nothing is left to process a seat is displayed as its row exactly when the last event
  applied to it is the last announced (`DrainRuns.DrainedShowsTableIff`), and a sold seat
  can end up displayed as held (`DrainFaults.FailedMarkHidesSale`). A row whose ordinals
  cannot be loaded is marked and lost; `DrainRuns.DisplaysRowIff` says exactly when the
  display survives that too.
* A saga may die at any moment. Some continuation then ends its order with money and seats
  in disagreement exactly when a deed had been done and not yet recorded
  (`SagaCrashes.CrashHarmlessIff`). In such a run from a published event an order is
  refunded and keeps its seat (`SagaWindows.RefundedYetSeated`).
* An order is captured under one key, whatever crashes, as long as none falls between moving
  it to other seats and the next status write (`SagaFaults.AtMostOneCapture`). A crash can
  get it captured under a second key exactly when it does (`SagaCrashes.SecondCaptureIff`),
  and in a run from a published event it is (`SagaWindows.ChargedTwice`).
* A batch sent again changes nothing exactly when no record of a new photo in it is newer
  than the copy that was stored (`LwwSync.ResubmissionChangesNothingIff`), and after any
  other requests exactly when no photo of it is newer than its row by then
  (`LwwSync.LateResubmissionIff`). A photo sent for a full site and, older, for another
  fails this in databases that can be reached (`LwwSync.MovedPhotoIsNotIdempotent`,
  `LwwSync.FullSiteReachable`).
* A section's rectangle is tight exactly when, on each axis, its seats do not all lie
  beyond 2^30 on one side (`Layout.SectionBoxTightIff`, `Layout.FarSeatMissesCorner`).

Three more things the models bring out: a refund is asked for with the provider's reference
exactly when the run that asks had found it in the payments table, so never by the run that
charged the card (`SagaFaults.RefundsCarryWhatWasRead`); an order whose saga stopped between
the confirmed and the ticketed write is never ticketed (`SagaRuns.ConfirmedForever`); and
more than 256 tiers make the tier indexes of a layout ambiguous whatever tier list is
published (`Layout.TierIndexesReadBackIff`).

## Model

| member | source | states |
|---|---|---|
| Seatmap.WriteGet | ticket-booking/internal/seatmap/seatmap.go:34-45 | writing one ordinal changes that seat and no other, as read by Get |
| Seatmap.SameSeatsSameBytes | ticket-booking/internal/seatmap/seatmap.go:24-45 | two bitsets of one length that show the same seats are the same bytes |
| Seatmap.SeatBits | ticket-booking/internal/seatmap/seatmap.go:1-38 | the state of ordinal o is bits 2k and 2k+1 of byte o/4, k being o modulo 4 |
| Seatmap.New | ticket-booking/internal/seatmap/seatmap.go:29-31 | a new bitset has just enough bytes for the count and shows every seat free |
| Seatmap.Set | ticket-booking/internal/seatmap/seatmap.go:41-45 | the in-place write sets exactly one ordinal |
| Seatmap.StateFromDB | ticket-booking/internal/seatmap/seatmap.go:55-71 | free, held and sold exactly for sellable seats of their statuses; unavailable exactly for unsellable seats and unknown statuses |
| Wsproto.PackUnpack | ticket-booking/internal/wsproto/wsproto.go:37-43 | unpacking a packed change gives its ordinal modulo 2^30 and state modulo 4 |
| Wsproto.EncodeSparse | ticket-booking/internal/wsproto/wsproto.go:60-71 | the loop writes the 12-byte header and four bytes a change |
| Wsproto.Decode | ticket-booking/internal/wsproto/wsproto.go:87-124 | decoding with every length, version and opcode error of the source |
| Wsproto.RefusedIff | ticket-booking/internal/wsproto/wsproto.go:87-124 | each error is given for exactly the buffers that are too short, of another version, or of no known opcode |
| Wsproto.SparseLayout | ticket-booking/internal/wsproto/wsproto.go:1-71 | a sparse frame byte by byte: opcode, version, sequence number, count, and each change with its state above 30 bits of ordinal, all least significant byte first |
| Wsproto.SnapshotLayout | ticket-booking/internal/wsproto/wsproto.go:1-58 | a snapshot byte by byte |
| Wsproto.SparseRoundTrip | ticket-booking/internal/wsproto/wsproto.go:60-124 | decoding any sparse frame gives its sequence number and as many masked changes as the count can announce |
| Wsproto.SparseExact | ticket-booking/internal/wsproto/wsproto.go:37-124 | a sparse frame survives unchanged exactly when it has fewer than 2^16 changes, each with an ordinal below 2^30 and a state below 4 |
| Wsproto.SnapshotRoundTrip | ticket-booking/internal/wsproto/wsproto.go:47-58 | a snapshot decodes to itself, byte for byte |
| Wsproto.DecodedIsEncoded | ticket-booking/internal/wsproto/wsproto.go:87-124 | whatever decodes is the encoding of its frame, up to bytes trailing a sparse frame |
| ReadModel.AppliedTracks | ticket-booking/internal/projector/projector.go:224-280 | one apply keeps bitset, sequence number and ring in agreement with the log: the ring is exactly the last min(seq, 200) deltas |
| ReadModel.ReachedTracks | ticket-booking/internal/projector/projector.go:224-280 | the same in every reachable state |
| ReadModel.ReachedShowsLast | ticket-booking/internal/projector/projector.go:224-280 | seat by seat, the bitset shows the last transition offered |
| ReadModel.CoalescedWritesSame | ticket-booking/internal/projector/projector.go:327-343 | folding changes to the last state per ordinal keeps their effect on a bitset |
| ReadModel.GapFillBridges | ticket-booking/internal/projector/projector.go:292-344 | a frame is returned exactly when the ring reaches back, and decoding and applying it to the bitset of that time gives the current one |
| ReadModel.EveryGapFills | ticket-booking/internal/projector/projector.go:224-344 | the same for every history of applies and every sequence number a client may hold |
| ReadModel.SameBitsIff | ticket-booking/internal/projector/projector.go:224-280 | two sequences of transitions lead to the same bitset exactly when the last one of every seat agrees, so rows lost or repeated matter only through the last |
| ReadModel.ReplayHarmlessIff | ticket-booking/internal/projector/projector.go:346-352 | applying the unmarked rows of a batch again leaves the bitset alone exactly when, for every seat retried, the last row retried has the state of the batch's last row |
| Projector.SeededShowsTable | ticket-booking/internal/projector/projector.go:114-118 | a seed shows every scanned row's state |
| Projector.Projector.OrdinalOf | ticket-booking/internal/projector/projector.go:52-73 | the per-event cache answers what the layout says; while it has to be loaded and cannot be, there is no answer and nothing is cached |
| Projector.Projector.EnsureBitset | ticket-booking/internal/projector/projector.go:96-135 | an existing bitset is left alone; a missing one is seeded and shows the table |
| Projector.Projector.Apply | ticket-booking/internal/projector/projector.go:224-280 | the byte rewrite, sequence bump and ring push are the cache step the theorems speak of |
| Projector.Projector.RunOnce | ticket-booking/internal/projector/projector.go:166-210 | one batch: unknown, malformed and unlocatable events are skipped and marked, failing marks leave their events, a failed apply stops the batch, counts as in the source |
| Projector.Projector.GapFill | ticket-booking/internal/projector/projector.go:292-344 | the code's answer is the fill the bridging theorem speaks of |
| Projector.Projector.MarkProcessed | ticket-booking/internal/projector/projector.go:346-352 | a mark that fails leaves the event unprocessed |
| Projector.FailureSticks | ticket-booking/internal/projector/projector.go:196-203 | after a failed apply nothing later in the batch is consumed or marked |
| Projector.ConsumeMeans | ticket-booking/internal/projector/projector.go:173-208 | an event is ignored, changing nothing, exactly when its type is unknown, its payload malformed or its seat not found; after any other its seat shows its state, and the sequence number grows by one exactly when it showed another |
| Projector.BatchMarks | ticket-booking/internal/projector/projector.go:166-210 | a batch marks every event it gets through, ignored or not, but those whose mark fails, and gets through all unless one cannot be applied |
| Projector.BatchCounts | ticket-booking/internal/projector/projector.go:166-210 | the applied count a batch reports is how far the sequence numbers have moved altogether |
| Projector.Fold | ticket-booking/internal/projector/projector.go:327-342 | the order slice and state map fold newest-first frames into the coalesced changes |
| Drain.ConsumeIsApplyEvent | ticket-booking/internal/projector/projector.go:173-208 | the projector's handling of an outbox row is the drain machine's apply step |
| Drain.CrashForgets | ticket-booking/internal/projector/projector.go:42-73 | after a crash the ordinals of every event have to be loaded anew, and that load can fail for the first row of the next batch |
| DrainFaults.RunOnceIsMoves | ticket-booking/internal/projector/projector.go:166-210 | one batch of the projector, whatever marks and loads fail in it, is a stretch of the machine's moves |
| DrainRuns.BitsetShowsApplied | ticket-booking/internal/projector/projector.go:96-210 | through any history at all a bitset shows, seat by seat, the last event applied or else what it was seeded with |
| DrainRuns.DisplaysRowIff | ticket-booking/internal/projector/projector.go:96-210 | through any honest history of transactions, scans, seeds, batches, failing marks, failing loads and crashes, a seat is displayed as its row exactly when it has had no row to process or what was last applied, or else seeded, is what its last row announces |
| DrainRuns.DrainedShowsTableIff | ticket-booking/internal/projector/projector.go:166-210 | with marks failing, a seat with nothing left to process is displayed as its row exactly when the last event applied to it is the last announced |
| DrainRuns.DrainedShowsTable | ticket-booking/internal/projector/projector.go:96-210 | with marks and loads that succeed, a seat with nothing left to process is displayed as its row, whatever else happens |
| DrainRuns.DrainedIsAtRest | ticket-booking/internal/projector/projector.go:96-210 | a drained end of such a history is the start of another |
| DrainRuns.FreshIsAtRest | ticket-booking/internal/projector/projector.go:96-135 | a newly published event is a start of such a history |
| DrainStale.DrainsInOrder | ticket-booking/internal/projector/projector.go:166-210 | an outbox of seats the table knows can always be drained, its events applied once each in order |
| DrainFills.EveryRunFillsGaps | ticket-booking/internal/projector/projector.go:96-344 | in every run of the whole path from an empty Redis, whatever fails in it, an event's cache is the one its applied events lead to, and the frame for any client turns the bitset it had into the current one |
| DrainFills.ClientShowsTable | ticket-booking/internal/projector/projector.go:96-344 | from a published event to the client: with marks and loads that succeed, a client that applies its frame shows the row of every seat with nothing left to process |
| DrainFaults.ReleaseKeepsDisplayIffHonest | ticket-booking/internal/inventory/inventory.go:249-258 | after a release and a drain, failing marks or not, the display is right exactly when each listed seat was released or already free |
| DrainFaults.SoldSeatAnnouncedFree | ticket-booking/internal/inventory/inventory.go:249-258 | a release listing a sold seat beside a held one announces the sold seat free |
| DrainStale.StaleReleaseHidesSale | ticket-booking/internal/inventory/inventory.go:249-258 | from a published event: two seats are held, one is taken over and sold, the stale list is released, and with every event applied once and in order the sold seat is displayed as free |
| DrainFaults.FailedMarkHidesSale | ticket-booking/internal/projector/projector.go:346-352 | from a published event: a seat is held and sold, the hold's mark fails once, and when all is marked the sold seat is displayed as held |
| EventSeats.AcquireAllOrNothing | ticket-booking/internal/db/queries.sql.go:15-26 | the rowcount test passes exactly when the seats are distinct and each is holdable |
| EventSeats.ConfirmAllOrNothing | ticket-booking/internal/db/queries.sql.go:97-107 | the rowcount test passes exactly when the seats are distinct and each is confirmable with its own fence |
| EventSeats.ExtendAll | ticket-booking/internal/db/queries.sql.go:395-402 | the rowcount falls short exactly when some seat is no longer extendable |
| EventSeats.ReleaseAny | ticket-booking/internal/db/queries.sql.go:1712-1718 | the rowcount is positive exactly when some listed seat is on the hold |
| Fencing.ConfirmMatchesLatestGrant | ticket-booking/internal/db/queries.sql.go:97-107 | in every run a confirm matches a seat exactly with the hold and fence of its latest acquire, not released, sold or expired |
| Fencing.GuardsFollowDeeds | ticket-booking/internal/db/queries.sql.go:1712-1718 | in every run a release or an extension takes a seat exactly from the hold of its latest acquire, an extension only before it expires; an acquire takes a sellable seat exactly when it is unsold and no grant of it stands unexpired |
| Fencing.StatusIsLatestDeed | ticket-booking/internal/db/queries.sql.go:395-402 | in every run a seat is available, held, pending payment or booked as the last thing done to it was a release or nothing, an acquire, an extension, a sale |
| Fencing.SupersededNeverConfirms | ticket-booking/internal/db/queries.sql.go:15-26 | a grant that has been superseded never confirms |
| Fencing.NeverBothEnabled | ticket-booking/internal/db/queries.sql.go:15-26 | the old holder's confirm and a contender's acquire are never both possible, and neither is at the instant of expiry |
| Fencing.SaleIsFinal | ticket-booking/internal/db/queries.sql.go:97-107 | a booked seat keeps its row for the rest of every run |
| Fencing.SoldOnce | ticket-booking/internal/db/queries.sql.go:97-107 | no seat is sold twice in any run |
| Fencing.RunKeepsConstraints | ticket-booking/migrations/000002_event_seats.up.sql:32-35 | no run of the statements can violate the table's constraints; a held seat also keeps its holder and the price it was held at, a booked one that price |
| Holdlock.Lock.Acquire | ticket-booking/internal/holdlock/holdlock.go:59-65 | set if absent; an unavailable store changes nothing |
| Holdlock.Lock.Release | ticket-booking/internal/holdlock/holdlock.go:30-77 | deletes the key only for its own owner |
| Sorting.SortedBySound | ticket-booking/internal/inventory/inventory.go:367-381 | sorting by seat gives the same pairs in ascending order |
| Inventory.Compact | ticket-booking/internal/inventory/inventory.go:98-107 | in-place compaction of a sorted slice keeps one of each id |
| Inventory.SortDedup | ticket-booking/internal/inventory/inventory.go:94-108 | the ids ascending, each once; duplicates are reported exactly when there were some |
| Inventory.NormalisedSound | ticket-booking/internal/inventory/inventory.go:94-108 | normalising keeps the set of ids and makes them strictly ascending |
| Inventory.SortSeatsAndFencesTogether | ticket-booking/internal/inventory/inventory.go:367-381 | both lists end sorted by seat, each fence still with its seat |
| Inventory.PairsDecideConfirm | ticket-booking/internal/inventory/inventory.go:293-310 | reordering the pairs does not change what a confirm matches or writes |
| Inventory.Service.AcquireRedisBatch | ticket-booking/internal/inventory/inventory.go:129-152 | keys are taken in order up to the first refusal or error, and exactly those become owned |
| Inventory.Service.ReleaseRedisBatch | ticket-booking/internal/inventory/inventory.go:339-350 | every key of the attempt is given back but those the store does not answer for; nobody else's is touched |
| Inventory.NoStrays | ticket-booking/internal/inventory/inventory.go:339-350 | with the store answering, a failed attempt leaves the key map as it was |
| Inventory.Service.AcquireHold | ticket-booking/internal/inventory/inventory.go:114-219 | all the seats held with one event each, or table and outbox untouched and no stray key; the hold handed back lists the asked ids ascending with the ordinals, fences, prices and expiry their rows now have, and with those fences every seat can be booked exactly until it expires |
| Inventory.GrantedIff | ticket-booking/internal/inventory/inventory.go:114-219 | while the stores answer, a hold is granted exactly when every row can be held and no key is owned, and refused only because seats are taken |
| Inventory.RefusedBecause | ticket-booking/internal/inventory/inventory.go:114-219 | why a hold is refused, for every input: duplicates, no seats, too many, exactly the seats in the way, or the database |
| Inventory.HandedConfirms | ticket-booking/internal/inventory/inventory.go:203-219 | the fences handed back with a hold confirm all of its seats at every time before its expiry, and at no other |
| Inventory.Service.ReleaseHold | ticket-booking/internal/inventory/inventory.go:228-271 | idempotent release: table and events together, with a failing publish rolled back; exactly the hold's keys of the listed seats the store answers for are gone, commit or not |
| Inventory.Service.ExtendHold | ticket-booking/internal/inventory/inventory.go:273-291 | extends what matches, returns how many did, and succeeds exactly when every listed seat did |
| Inventory.Service.ConfirmSeats | ticket-booking/internal/inventory/inventory.go:293-337 | books every seat or none, succeeding exactly when each is confirmable with its fence; refused as expired exactly when the statement was reached and some seat is not |
| BestAvailable.FindContiguousRuns | ticket-booking/internal/inventory/best_available.go:68-89 | the nested scan returns the runs in order of their start |
| BestAvailable.RunsAreTogether | ticket-booking/internal/inventory/best_available.go:68-89 | a run is returned exactly when it is a group of offered seats with consecutive ordinals in one row |
| BestAvailable.NeverDearer | ticket-booking/internal/order/order.go:232-237 | a group searched at the average price paid never costs more than was paid |
| BestAvailable.FoundRunsCanBeHad | ticket-booking/internal/inventory/best_available.go:27-62 | while the table stays as it was, every run found can be had at any time unless somebody has a key of it |
| BestAvailable.Find | ticket-booking/internal/inventory/best_available.go:27-62 | at most three attempts; success holds one listed run, failure changes nothing but keys the store would not take back; while the stores answer it succeeds exactly when one of the first three runs can be had; while keys go back, the first attempt not lost to a contender decides, success or error |
| BestAvailable.RunsAreDistinct | ticket-booking/internal/inventory/best_available.go:68-89 | the seats of one run are different seats |
| Payment.Provider.Charge | ticket-booking/internal/payment/payment.go:61-81 | idempotent on its key, captures at most that key, and may answer unknown either way: which dice capture and what is answered, case by case |
| Payment.Provider.StatusOf | ticket-booking/internal/payment/payment.go:89-94 | captured exactly for captured keys, never unknown |
| Saga.StatementKeepsInv | ticket-booking/internal/order/order.go:143-272 | every statement of a saga or of the reconciler keeps the agreement of row, payment, refund and booked seats |
| Saga.StatementBooks | ticket-booking/internal/order/order.go:211-257 | a statement books to its order exactly the seats it confirms, and to other orders nothing |
| Saga.RunsAffordable | ticket-booking/internal/order/order.go:232-256 | every run considered for reallocation is of the asked size, side by side, within the price bound |
| SagaRuns.RunKeepsInv | ticket-booking/internal/order/order.go:143-272 | the agreement holds in every reachable world of many orders, other users, clock, reconciler and tolerable crashes |
| SagaRuns.EndStatesAgree | ticket-booking/internal/order/order.go:143-272 | ticketed: paid under one key, nothing refunded, exactly its seats booked; compensated: paid under one key, refunded once in full, no seat; failed: never captured, no seat |
| SagaRuns.FinalForever | ticket-booking/internal/reconcile/reconcile.go:51-93 | an order that has ended never changes again, so a failed one is never captured later |
| SagaRuns.ConfirmedForever | ticket-booking/internal/order/order.go:143-150 | an order whose saga stopped between the confirmed and the ticketed write keeps that status, its payment and its seats for ever |
| SagaRuns.ReallocationIsFair | ticket-booking/internal/order/order.go:232-256 | in every run a reallocated order holds neighbouring seats of one row, as many as it asked for, worth no more than was paid |
| SagaRuns.MoneyChecks | ticket-booking/internal/reconcile/reconcile.go:98-108 | the seat-with-no-money check is always silent; the money-with-no-seat check names only unfinished orders |
| SagaProgress.EverySagaSettles | ticket-booking/internal/order/order.go:143-272 | under any interleaving a running saga takes at most twenty more statements, can always take its next, and when it stops its order is settled or its payment unknown |
| SagaRuns.OrderCostsItsHold | ticket-booking/internal/order/order.go:88-127 | an order placed on a hold is for exactly its seats, and costs the prices handed back with it |
| Saga.ExtendsIff | ticket-booking/internal/order/order.go:155-164 | the extension succeeds exactly when every seat is still on the unexpired hold |
| SagaOutcomes.ExtensionDecides | ticket-booking/internal/order/order.go:150-164 | in any run, whatever crashes: if every seat is on the hold and unexpired when the extension runs, all stay so for 180 seconds and the saga goes on to the payment; if one is not, nothing is ever charged by this saga and the order fails |
| SagaOutcomes.ChargeDecides | ticket-booking/internal/order/order.go:166-207 | in any run: captured, the order can only stop ticketed or compensated; declined, only failed and uncharged; unknown, it is written down as that and left authorizing |
| SagaOutcomes.ReconcilerDecides | ticket-booking/internal/reconcile/reconcile.go:51-93 | in any run: an order whose payment the reconciler takes up can only stop ticketed or compensated when the provider has captured it, and failed when it has not |
| SagaSeats.ConfirmDecides | ticket-booking/internal/order/order.go:209-223 | in any run: while each seat is confirmable at the confirm the order can only stop ticketed with its own seats |
| SagaSeats.SecondConfirmDecides | ticket-booking/internal/order/order.go:239-258 | in any run: while each of the other seats is confirmable the order can only stop ticketed and moved to them; if one is not, the next statement takes all of them off the hold and the order can only stop compensated |
| SagaSeats.RefundComesLast | ticket-booking/internal/order/order.go:226-258 | in any run: a saga refunds only after asking for too many seats, losing a group it held, or being turned away from each of the first three groups it found |
| SagaCrashes.CrashHarmlessIff | ticket-booking/internal/order/order.go:211-271 | after a crash at any moment of any run some continuation ends the order with money and seats in disagreement exactly when a deed was done and not yet recorded |
| SagaCrashes.RerunEnds | ticket-booking/internal/order/order.go:143-271 | the rerun of a paid order left confirming ends ticketed when its seats are still on its hold and refunded otherwise, with no other seats to be had |
| SagaFaults.AtMostOneCapture | ticket-booking/internal/order/order.go:166-207 | over any number of runs and reconciler passes cut off anywhere but in the reallocation window, at most one key is captured for an order |
| SagaCrashes.SecondCaptureIff | ticket-booking/internal/order/order.go:166-256 | after a crash at any moment of such a run some continuation captures the order under a second key exactly when the crash falls between moving it to other seats and the next status write |
| SagaWindows.ChargedTwice | ticket-booking/internal/order/order.go:246-247 | from a published event: a crash in that window and a rerun capture the order under a second key |
| SagaCrashes.BookedSeatsMiss | ticket-booking/internal/order/order.go:211-229 | a confirm of seats already booked to the order never passes |
| SagaWindows.RefundedYetSeated | ticket-booking/internal/order/order.go:211-271 | from a published event: after a crash between booking and status write the rerun refunds the order while its seat stays booked to it |
| SagaFaults.RefundsCarryWhatWasRead | ticket-booking/internal/order/order.go:166-192 | a run asks for a refund with the provider's reference exactly when the payment row it found had one, so never in the run that charged the card |
| SagaUndisturbed.UndisturbedTickets | ticket-booking/internal/order/order.go:143-223 | left alone with a live hold and a working card, an order goes through its eleven statements, one path, and ends ticketed, captured once, its seats booked |
| SagaUndisturbed.UndisturbedMoves | ticket-booking/internal/order/order.go:232-256 | other seats come before a refund: while the first group found is free, the order is moved to it, its seats booked, nothing refunded, its hold id replaced |
| MockJira.Server.Create | offline-sync-app/internal/mockjira/mockjira.go:105-120 | a new issue of version 1 under the next id |
| MockJira.NextIdIsNew | offline-sync-app/internal/mockjira/mockjira.go:105-120 | the id of a new issue is that of no issue there is |
| MockJira.Server.Update | offline-sync-app/internal/mockjira/mockjira.go:138-156 | exactly the given fields, the version one higher, the time of the write |
| MockJira.Server.Delete | offline-sync-app/internal/mockjira/mockjira.go:158-170 | a tombstone one version higher, its text kept |
| MockJira.Server.Patch | offline-sync-app/internal/mockjira/handler.go:94-111 | a repeated key gets the first answer and changes nothing |
| MockJira.Server.List | offline-sync-app/internal/mockjira/mockjira.go:174-201 | one page, in strict position order, of exactly the matching issues; what is cut off lies beyond the cursor |
| MockJira.Trichotomy | offline-sync-app/internal/mockjira/mockjira.go:203-217 | positions are ordered by time and then by id, character by character; the order is strict and total |
| Twoway.Merge | offline-sync-app/internal/twoway/ownership.go:34-50 | each field from its owner; rejected exactly the internal fields that disagree |
| Twoway.PushThenMerge | offline-sync-app/internal/twoway/ownership.go:54-66 | what is pushed comes back without conflict and touches no external field |
| Twoway.Store.ResolveInternalId | offline-sync-app/internal/twoway/apply.go:141-150 | the link is made once and kept |
| Twoway.Store.AdvanceLinkVersion | offline-sync-app/internal/db/queries.sql.go:15-19 | the gate passes exactly for a strictly newer version |
| Twoway.Store.Apply | offline-sync-app/internal/twoway/apply.go:54-106 | one inbound issue: echo, stale, merged, with its event only when something changed |
| Twoway.ChangesAreAnnounced | offline-sync-app/internal/twoway/apply.go:84-138 | an inbound apply writes one event exactly when the item is new or its row changed, telling the new row, the system as actor, and a deletion exactly when the row is deleted; otherwise none |
| Twoway.OutcomeMeans | offline-sync-app/internal/twoway/apply.go:54-117 | each outcome from the tables: an echo is the webhook of what was pushed last, anything else not newer is stale, neither changes a row; a newer version sets each field from its owner |
| Twoway.ConflictIff | offline-sync-app/internal/twoway/apply.go:84-105 | a newer version conflicts exactly when it disagrees with an internally owned field of an item already here |
| Twoway.Store.EditNotes | offline-sync-app/internal/twoway/workitems.go:27-44 | row and event together, refused for a missing or deleted item |
| Twoway.EditsAreAnnounced | offline-sync-app/internal/twoway/workitems.go:27-44 | a local edit writes the notes and nothing else, and one event with the whole row and the editor |
| Twoway.InternalFieldsKept | offline-sync-app/internal/twoway/apply.go:84-93 | no inbound apply changes an internal field of an existing item, nor any other item |
| Twoway.VersionRecorded | offline-sync-app/internal/twoway/apply.go:60-76 | the recorded version never goes back, and a poll brings it up to the issue's |
| Twoway.HistoryShowsNewest | offline-sync-app/internal/twoway/apply.go:54-106 | after any history the item shows the newest delivered version's external fields and deleted flag; its external notes exactly when no effective edit since that version first arrived wrote another text last |
| Twoway.OrderInsensitive | offline-sync-app/internal/twoway/apply.go:54-106 | histories delivering the same versions, reordered, repeated and interleaved with edits, end the same; external notes exactly where each history's last edits let them stand |
| Twoway.EditOverridesExternalNotes | offline-sync-app/internal/twoway/workitems.go:27-44 | were notes externally owned, a local edit would show until the next version, unless it writes the same text |
| Extractor.Extractor.Run | offline-sync-app/internal/twoway/extractor.go:53-125 | however a run ends the checkpoint stays good and no page began without time for it; when done, every issue's recorded version has reached the one it had at the last page's fetch, and the watermark is the time of the newest issue there was; when not, the watermark is where it was and while nobody writes every committed page leaves the next run fewer issues to list; left in peace it gets done |
| Extractor.Extractor.Resume | offline-sync-app/internal/twoway/extractor.go:56-68 | the stored cursor or the watermark less the overlap still covers whatever is not recorded, and a late write no older than that |
| Extractor.Extractor.Commit | offline-sync-app/internal/twoway/extractor.go:91-101 | page and checkpoint in one transaction |
| Extractor.Extractor.NewestOf | offline-sync-app/internal/twoway/extractor.go:84-88 | the newest time covers the page and never passes the tracker's |
| Extractor.Extractor.ApplyPage | offline-sync-app/internal/twoway/extractor.go:91-96 | a page's issues are applied in order as polled |
| Extractor.PolledCatches | offline-sync-app/internal/twoway/apply.go:51-76 | polling a page brings every issue on it up to date and takes none back |
| Extractor.PageDone | offline-sync-app/internal/twoway/extractor.go:91-125 | from fetch to commit with the tracker changing in between, nothing unrecorded falls behind the cursor or the watermark |
| Extractor.PageMovesOn | offline-sync-app/internal/twoway/extractor.go:105-109 | every page but the last leaves strictly fewer issues beyond its cursor |
| Outbound.PushesOnce | offline-sync-app/internal/mockjira/handler.go:94-111 | however often a push is retried it writes at most one version, and none once its key was answered |
| Outbound.PushEnds | offline-sync-app/internal/twoway/client.go:108-127 | a push ends with the issue exactly when one of the attempts made is answered, is given up exactly when one is refused for good or none is left, and is else cut short |
| Outbound.PushWrites | offline-sync-app/internal/mockjira/handler.go:94-111 | a push under a new key writes its patch exactly when an attempt gets through, whoever hears of it |
| Outbound.PushedOutIff | offline-sync-app/internal/twoway/loader.go:37-62 | exactly the events of linked items that the tracker did not cause go out, unless it owns every field |
| Outbound.LocalEditIsPushed | offline-sync-app/internal/twoway/loader.go:37-95 | a local event of a linked item: the issue takes over every internally owned field, one version higher and otherwise as it was, exactly when an attempt gets through; the loader hears of it exactly when one is answered; with nothing to push nothing changes |
| Outbound.Loader.Handle | offline-sync-app/internal/twoway/loader.go:57-95 | skips the tracker's own events, unlinked items and empty patches; otherwise pushes under the event's id, remembers, or dead-letters |
| Outbound.Loader.Remember | offline-sync-app/internal/db/queries.sql.go:980-988 | only a newer version replaces what is remembered of a push |
| Outbound.RemembersNewest | offline-sync-app/internal/db/queries.sql.go:980-988 | in whatever order pushes are answered, the first answer of the greatest version is remembered and nothing else changes |
| Outbound.PushComesBackAsEcho | offline-sync-app/internal/twoway/apply.go:108-117 | the webhook a remembered push provokes changes nothing |
| Outbound.AtMostOneVersionPerEdit | offline-sync-app/internal/twoway/loader.go:37-75 | in every run the loader adds at most one version for each committed local edit |
| LwwSync.UpsertOne | offline-sync-app/internal/db/queries.sql.go:865-887 | the upsert with cap and parent check, and its classification |
| LwwSync.UpsertBatch | offline-sync-app/internal/sync/sync.go:99-125 | the loop over a batch, stopping at an error of the database |
| LwwSync.OutcomeMeans | offline-sync-app/internal/sync/sync.go:221-236 | each outcome says exactly how the record stands to the row it finds afterwards |
| LwwSync.LastWriteWins | offline-sync-app/internal/db/queries.sql.go:790-800 | after any history a row has its creator's creation fields for ever and the first accepted content of the greatest updated_at since |
| LwwSync.TablesAreFolds | offline-sync-app/internal/sync/transactional.go:37-102 | after any sequence of requests the tables are what the committed records make them, and no site has more than ten photos |
| LwwSync.PhotosByLastWrite | offline-sync-app/internal/db/queries.sql.go:865-887 | the two claims together for photos |
| LwwSync.UpsertWithinCap | offline-sync-app/internal/db/queries.sql.go:865-887 | a statement never takes a site beyond the cap |
| LwwSync.ParentsExist | offline-sync-app/migrations/000001_init_schema.up.sql:17-38 | after any requests every site is at a location and every photo of a site that exists |
| LwwSync.RefusedIff | offline-sync-app/internal/sync/sync.go:99-125 | an uncapped batch is refused exactly when the first record of a new id names a parent that does not exist |
| LwwSync.ResubmissionChangesNothingIff | offline-sync-app/internal/sync/sync.go:210-236 | a request sent again leaves every table as it is exactly when no record of a new photo is newer than the copy that was stored |
| LwwSync.LateResubmissionIff | offline-sync-app/internal/sync/sync.go:210-236 | a committed request sent again after any others is never refused, and changes nothing exactly when no photo of it is newer than its row by then |
| LwwSync.MovedPhotoIsNotIdempotent | offline-sync-app/internal/db/queries.sql.go:865-887 | in every reachable database with a full site and another, a photo sent for the full one and then, older, for the other overwrites itself when sent again |
| LwwSync.FullSiteReachable | offline-sync-app/internal/db/queries.sql.go:865-887 | such a database is reached from an empty one |
| LwwSync.AppliedAt | offline-sync-app/internal/sync/transactional.go:50-56 | the places of the applied records, ascending, none left out |
| LwwSync.RequestTold | offline-sync-app/internal/sync/transactional.go:50-96 | the events of a request, index by index: the k-th applied record of each kind, with the actor |
| LwwSync.TxRunner.Sync | offline-sync-app/internal/sync/transactional.go:37-102 | one transaction: the batch and one event for each record applied, that record and the actor in it, or nothing |
| Limits.Measurer.Measure | offline-sync-app/internal/graph/limits.go:86-112 | depth and saturated count are those of the full expansion; each fragment body is walked at most once |
| Limits.Measurer.MeasureFragment | offline-sync-app/internal/graph/limits.go:97-104 | the memo always holds the expansion's shape |
| Limits.DistinctBodies | offline-sync-app/internal/graph/limits.go:84-112 | the bodies walked are together no larger than the document's |
| Limits.VerdictIsExact | offline-sync-app/internal/graph/limits.go:65-74 | the saturated verdict is full expansion's for every field limit below 2^30 |
| Limits.ExpansionIsWrittenOut | offline-sync-app/internal/graph/limits.go:86-112 | the measured expansion is the document with every fragment written out, introspection left out |
| Limits.Check | offline-sync-app/internal/graph/limits.go:65-74 | an operation passes exactly when its expansion is within both limits, refused with its depth or saturated count, at a cost bounded by the document |
| DataLoaders.ProtocolHolds | offline-sync-app/internal/graph/dataloader.go:43-100 | for every interleaving: only the pending batch is unsent, sizes and keys are right, each batch fetched and closed once, an unsent one has its timer |
| DataLoaders.OneBatchPerKey | offline-sync-app/internal/graph/dataloader.go:60-76 | a key is in one batch, once |
| DataLoaders.SentIsFrozen | offline-sync-app/internal/graph/dataloader.go:70-89 | no later step changes a sent batch's keys, sends it again or drops its answer |
| DataLoaders.NeverStuck | offline-sync-app/internal/graph/dataloader.go:43-100 | a batch that is not done has a step of its own to take |
| DataLoaders.ThreeStepsEach | offline-sync-app/internal/graph/dataloader.go:43-100 | each batch takes exactly three steps of its own, so every run without new loads ends |
| DataLoaders.DataLoader.Load | offline-sync-app/internal/graph/dataloader.go:43-49 | the locked part returns the batch that has the key |
| DataLoaders.DataLoader.Enqueue | offline-sync-app/internal/graph/dataloader.go:60-76 | the key joins the pending batch, which is sent when full |
| DataLoaders.DataLoader.Flush | offline-sync-app/internal/graph/dataloader.go:78-89 | the timer sends an unsent batch and leaves a sent one |
| DataLoaders.DataLoader.FetchKeys | offline-sync-app/internal/graph/dataloader.go:92-100 | the fetch asks for exactly the batch's keys |
| DataLoaders.DataLoader.CloseDone | offline-sync-app/internal/graph/dataloader.go:92-100 | done is closed after the fetch |
| DataLoaders.DataLoader.Await | offline-sync-app/internal/graph/dataloader.go:51-57 | a load gets the answer of the one fetch that asked for its key |
| Layout.SectionsAreRanges | ticket-booking/internal/catalog/layout.go:108-126 | sections cut the seats and the rows into consecutive ranges of their own seats |
| Layout.RowsAreRanges | ticket-booking/internal/catalog/layout.go:117-126 | rows cut the seats into consecutive ranges |
| Layout.RowsNest | ticket-booking/internal/catalog/layout.go:108-126 | a row is in a section's row range exactly when it is one of its rows, and its seats are among the section's |
| Layout.TierIndexesReadBackIff | ticket-booking/internal/catalog/layout.go:128-130 | tier indexes lead back to the tiers with at most 256 tiers, and with more no tier list makes them |
| Layout.TiersInOrder | ticket-booking/internal/catalog/layout.go:128-130 | tiers are listed in the order the walk first meets them |
| Layout.BoxIsTight | ticket-booking/internal/catalog/layout.go:132-144 | the box holds every seat and each side touches one |
| Layout.SectionBoxTightIff | ticket-booking/internal/catalog/layout.go:157-185 | a section's rectangle holds its seats and touches one on each side exactly when on each axis they do not all lie beyond the starting bounds |
| Layout.FarSeatMissesCorner | ticket-booking/internal/catalog/layout.go:157-185 | a single seat beyond 2^30 has a rectangle that is not tight |
| Layout.SeatLabelToNumber | ticket-booking/internal/catalog/layout.go:209-221 | a label of digits gives its number modulo 2^16, any other the running position |
| Layout.LabelReadsBack | ticket-booking/internal/catalog/layout.go:209-221 | a seat labelled with its number in decimal gets that number, modulo 2^16 |
| Layout.WalkRanges | ticket-booking/internal/catalog/layout.go:108-126 | the loop's counters build the section and row ranges |
| Layout.WalkBoxes | ticket-booking/internal/catalog/layout.go:157-182 | the second loop finds each section's bounds |
| Layout.ListTiers | ticket-booking/internal/catalog/layout.go:189-192 | the tier list does not depend on the order the map is walked in |
| Layout.BuildLayout | ticket-booking/internal/catalog/layout.go:83-201 | the whole artifact, refused only for a venue without seats; each section's polygon goes round its rectangle from the least corner, side by side |
| SeatsBin.EncodeSeatsBin | ticket-booking/internal/catalog/layout.go:232-258 | the in-place column writes give header and columns in order |
| SeatsBin.ReadsBack | ticket-booking/internal/catalog/layout.go:223-258 | every column of the blob reads back to what was put in |
| OrderedLocking.NoDeadlock | examples/16-deadlocks.go:105-119 | while a transfer is unfinished some goroutine can step |
| OrderedLocking.RunsAreBounded | examples/16-deadlocks.go:105-119 | no run is longer than eight steps a transfer |
| OrderedLocking.EveryRunFinishes | examples/16-deadlocks.go:105-119 | a run that cannot go on has finished every transfer, with every balance exactly what its transfers make it |
| OrderedLocking.SelfPaymentNeverEnds | examples/16-deadlocks.go:105-119 | a transfer from an account to itself waits for ever for the lock it holds |
| OrderedLocking.TotalConserved | examples/16-deadlocks.go:105-119 | the total is short by what is in flight, and whole at the end |

## Left out

- Projector.Projector.Apply: a projector's apply is one step; a crash between the Redis byte write and the sequence bump is not modelled (the source names it as a known gap).
- RunSaga and compensate: a machine of atomic statements on values and not one method with branches, because other users' transactions, the clock and crashes come between any two of their statements; the statements are those of the source in its order.
- At-most-once per order assumes one runner per order and database writes that do not fail; the reconciler decides on a payment it reads when it starts on it, not on one listed earlier.
- CreateOrder's transaction is one move with its lookup, ownership and uniqueness checks; amounts are unbounded integers and not int32, and the locked prices add up to no negative total.
- Order confirmation e-mails, ticket issuance, saga-step rows, `holds_audit`, failure codes and logging.
- Redis keys do not expire by themselves; Redis and Postgres failures are inputs where the source handles them; isolation levels are taken as serial.
- Rows returned by a multi-row statement are taken in ascending seat order.
- One projector per event log; several processes may race to seed a bitset.
- SHA-256, JSON, base64 and UUIDs: keys and hashes are injective values and cursors are positions; times are integers, so the rounding of stored timestamps is not modelled.
- The reaper is a release step by another user.
- The tracker's webhook queue, delivery signatures and fault injection; its REST calls fail only as the retry loop of a push sees it, and a listing fails as a whole.
- A negative overlap of the extractor, and the page and issue counts it reports.
- Retry delays, Retry-After and jitter: only which attempts reach the tracker matters.
- Latitude and longitude are real numbers; a photo's condition is one of the three the schema admits.
- A panic in a batch fetch counts as a failed fetch; a load abandoned by its context is not modelled.
- The complexity estimator, token limit and page-size clamp of the GraphQL server.
- HTTP handlers, WebSocket transport, Lambda entry points, front ends, load tools, and the remaining concurrency examples.
