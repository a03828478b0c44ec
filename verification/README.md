# Verified model of the bingo backend

This project models the part of the bingo backend that carries money and state, and proves what it
promises: sessions from registration to payout or cancellation, the claims and the winner window, the
draws, the slot queue, the registration opener, cartela holds, bulk registration, the prize split, the
cartela catalogue and the push limiter.

## How the model is built

* `Games`, `Wallets`, `Registering`, `Rounds`, `Opening` hold the rows of the database and, for every
  transaction, the state it leaves as a function of the state it found. A transaction that throws gives
  back the state it found. Rows of one session (registrations, holds, called numbers, claims) are kept
  inside the session; a row's id is its position. Money is in whole cents, time in milliseconds.
* `Platform` turns them into 31 kinds of events. An event is one transaction, one stand-alone
  compare-and-set, or one read that a later step relies on. A flow of several steps leaves a task between
  them, so any other event can come in between: a random pick and its write, a last ball and the grace
  period, the expirer's read and write, the fee check and its commit, and a reservation, whose clock is
  sampled before its transaction begins. A transaction that ends a round runs the registration opener
  inside itself, as the code does. Rule verdicts, timings, clocks sampled outside a transaction and
  configuration are free parameters of the events.
* `Invariants`, `SessionSteps`, `Safety` prove that every event keeps the safety invariant; `Accounts`,
  `AccountSteps` do the same for the money; `Runs`, `Conservation`, `EarnedWins`, `HoldRuns`, `QueueRuns` and
  `BulkRuns` state what follows for every run.
* `Database` and the service classes (`GamesService`, `BingoClaimsService`, `GameLifecycleService`,
  `GameEngineService`, `CalledNumbersService`, `GameQueueService`, `PostGameRegistrationOpenerService`,
  `CartelaReservationService`, `CartelaReservationExpirerService`) write the transactions as the services
  do, field by field and loop by loop with rollback, each method proved equal to the function above.
* `PrizeSplit`, `CartelaPrefix`, `CartelaCatalog`, `PushGuard` with `PushRuns`, `GameQueue`, `OpenerProofs`,
  `WinningBalls`, `Bulk`, `WindowRace` with `RaceRuns`, `FeeRace` are the cores with laws of their own.

What the prizes, the refunds' existence, the pot and the recorded ledger satisfy, they satisfy in every run.
A "steady" run is one in which every entry-fee update is committed while nobody is registered in the READY
session of the slot, or leaves the fee as it was. The code checks this before its transaction, not in it
(first finding below), so the laws that speak of the amount of a refund or of the company's revenue are stated
for steady runs, and `FeeRace` shows that this is exactly what they need.

## What turned out not to hold as promised

1. `updateSlotEntryFee` counts registrations before its transaction starts. A player who registers in
   between is refunded at the new fee when the session is cancelled. `FeeRace.StaleFeeBreaksRefund` is such a
   run (a wallet of 5000 ends at 6000); `FeeRace.CommitKeepsPricesIff` and `FeeRace.RefundAfterCommitIff` say
   exactly when a commit is harmless.
2. `reserveCartela` and its bulk form sample their clock before the transaction, so they can extend a hold whose
   time is over. The expirer may have listed that hold already, and its write by id then expires a hold with time
   left. `HoldRuns.LateWriteHitsLiveHold` is such a run; `HoldRuns.RevivedIff`,
   `HoldRuns.ListedHoldStaysDeadIff` and `HoldRuns.WriteMeetsLiveHoldIff` say exactly when it happens. Holds stay
   exclusive all the same (`Runs.HoldsAreExclusive`).
3. The push limiter filters and logs in separate database calls, so requests for one user that overlap can take
   the user past a cap. `PushRuns.OverlapExceedsCap` is a run with three marketing rows where two are allowed;
   `PushRuns.EveryRunIsCapped` is the bound that holds in every interleaving, and `PushRuns.LogKeepsCapIff` with
   `PushRuns.RoomIsOneCount` the question that would have to be asked when the rows are written.
4. A claim transaction reads the session and the balls, and writes later, guarded by its cartela alone when it saw
   the window. The admin can close the window and the finalizer can pay in between, so the claimer becomes a winner
   of a round already paid: `RaceRuns.LateJoinerIsNotPaid`. A ball can be called by hand in between, so the claim
   does not store the last ball: `RaceRuns.BallBetweenIsMissed`. `WindowRace.CommitIsWholeClaimIff`,
   `WindowRace.EveryWinnerPaidIff` and `WindowRace.AllStoreLastBallIff` say exactly when. The events of `Platform`
   take a claim as one step; what `Runs.AllWonOnTheSameBall` and `Conservation.PayoutIsExact` say of every run, they
   say of runs whose claim transactions do not overlap with these three.
5. A wallet credit must be positive, so a window whose prize has fewer cents than winners can never be paid:
   each attempt rolls back (`Conservation.WindowClosesIff`). A round started directly opens with prize 0,
   whatever the slot's fixed prize, and is paid exactly when its fee leaves a part for the prize: never a bonus
   round, nor a Big GOTD round at its own prices (`Conservation.DirectRoundPaysIff`).
6. `moveSlotToBack` takes the greatest sort order with missing orders listed first, so one missing order sends
   the slot to order 1 (`GameQueue.BackIsLastIff`; `QueueRuns.MissingOrderSendsToFront` is such a table). The
   column allows missing orders; a queue that starts with distinct orders and is reordered without collisions never
   gets one (`QueueRuns.QueueStaysOrdered`).
7. `updateQueueOrder` keeps the orders of queued slots distinct exactly when no other queued slot already has
   one of the orders it hands out (`GameQueue.ReorderDistinctIff`; `QueueRuns.PartialReorderCollides` is a run
   that makes two slots share an order).
8. The decimal prefix ranges are exact exactly for prefixes without a leading zero
   (`CartelaPrefix.ExactIffNoLeadingZero`).
9. After a failed payment, a bulk chunk reports the rest as failed, even cartelas the player already has; and
   a closed registration does the same for all. The state is unaffected (`Bulk.FailureLasts`,
   `Bulk.ReportsAreTrue`, `Bulk.ClosedChangesNothing`).
10. An unfiltered catalogue page holds one row more than the limit (`CartelaCatalog.FullPageSize`); following
    the cursors is complete all the same (`CartelaCatalog.FollowPages`).
11. `confirmReservation` writes EXPIRED before it throws, and the throw rolls that write back; the model
    therefore leaves the hold as it was (`GamesServices.GamesService.ConfirmReservation`).

One difference is only internal: bulk registration does not look at the Big Game limit that single registration
applies (`Bulk.BigGameBulkAgreesIff`), but its only way in never resolves to a Big Game's session
(`QueueRuns.BulkNeverMeetsBigGames`).

## Model

| member | source | states |
|---|---|---|
| Runs.EveryRunIsSafe | src/games/game-operation-invariants.service.ts:57-87 | after any events in any order from any start, the safety invariant holds: balls, registrations, winners, pending claims, holds, prices, live rounds, and what waiting steps rely on |
| Safety.EventIsGood | src/games/game-status.rules.ts:4-23 | each event keeps the invariant, undoes nothing that waiting steps rely on, and changes session statuses only along the transition table |
| Runs.StatusesFollowTheTable | src/games/game-status.rules.ts:4-23 | in every run every status change is an edge of the table, although `rejectClaim` writes PLAYING unguarded and `finishGameWithWinner` accepts PLAYING |
| Runs.PendingIffChecking | src/bingo-claims/bingo-claims.service.ts:614-655 | a claim on a REGISTERED cartela is PENDING exactly while its session is CHECKING, and then it is the only one, which is what keeps the unguarded write of `rejectClaim` an edge |
| EarnedWins.WinnersAreEarned | src/bingo-claims/bingo-claims.service.ts:965-1090 | in every run a cartela becomes a winner only by its owner's claim on a winning board while the round plays or the window with its grace is open, or by the approval of its pending claim |
| EarnedWins.ClaimWinsIff | src/bingo-claims/bingo-claims.service.ts:155-232 | a claim makes its cartela a winner exactly under these conditions, and no other cartela |
| EarnedWins.OnlyClaimsMakeWinners | src/bingo-claims/bingo-claims.service.ts:262-322 | no other event (payouts, rejections, cancels, registrations, draws) makes anyone a winner |
| Runs.SettledStaysSettled | src/called-numbers/called-numbers.service.ts:62-66 | terminal statuses are never left; from the opening of the window on, balls, cartelas and pot stand still for ever |
| Runs.OneRoundAtATime | src/game-engine/game-engine.service.ts:132-285 | never two live sessions; the live one's slot is PLAYING; a slot never has two sessions that are READY or live |
| Runs.NoWinnerMeansAllCalled | src/game-engine/game-engine.service.ts:452-561 | called numbers have orders 1..k with k at most 75 and "latest + 1" is "count + 1"; grace and NO_WINNER only after each of the 75 numbers was called, although the last pick is a step of its own |
| Runs.HoldsAreExclusive | src/games/games.service.ts:1907-2038 | at most one ACTIVE hold per session and cartela, no unexpired hold on a registered cartela, so a confirmation never meets a duplicate; reservations commit with clocks sampled at any earlier time |
| HoldRuns.RevivedIff | src/games/games.service.ts:1907-1912 | the only events that bring a dead hold back are a committing single or bulk reservation by its owner whose sampled clock is before the hold's deadline, and which nothing else refuses |
| HoldRuns.ListedHoldStaysDeadIff | src/games/cartela-reservation-expirer.service.ts:64-88 | a hold the expirer has listed is dead at every moment up to the write exactly when no such late refresh commits in between |
| HoldRuns.WriteMeetsLiveHoldIff | src/games/cartela-reservation-expirer.service.ts:64-88 | the write meets a live hold exactly when a late refresh brought it back after the read and it has stayed alive since |
| HoldRuns.WriteExpires | src/games/cartela-reservation-expirer.service.ts:81-88 | the write goes by id alone: whatever a listed hold has become, it is EXPIRED afterwards |
| HoldRuns.LateWriteHitsLiveHold | src/games/games.service.ts:1907-1912 | a run from an empty database in which the expirer expires a hold with 9 ms left |
| Runs.AllWonOnTheSameBall | src/games/session-winner-results.builder.ts:258-308 | all VALID claims of an automatic session store the last called ball, the balls at claim time are all the balls, and the results page shows that ball for every winner |
| WinningBalls.SnapshotIsLastCall | src/bingo-claims/winning-ball.util.ts:14-50 | with distinct numbers, looking up the latest number finds the last call and not an earlier row |
| WinningBalls.FilterKeepsAll | src/games/session-winner-results.builder.ts:130-139 | balls called no later than the check are all kept, in order |
| Runs.PotIdentity | src/games/games.service.ts:1195-1207 | in every run: outside CANCELLED the prize is the opening prize plus the prize part of each live cartela, and the two parts make the fee |
| Runs.RevenueIdentity | src/games/games.service.ts:1195-1207 | in every steady run the revenue is the company part of each live cartela |
| Runs.RegistrationsStay | src/games/games.service.ts:1165-1217 | a registration stays in its place in every later state, with its cartela, player, source and amount |
| Runs.EveryRunIsSound | src/games/registration-payment.util.ts:47-84 | in every run each wallet is its opening balance less recorded entries plus prizes and recorded refunds, and the ledger holds exactly the entries, prizes and refunds the sessions account for; in steady runs the refunds are what was paid |
| AccountSteps.EventIsSound | src/games/games.service.ts:1092-1253 | each event, the two payouts and the cancel loop included, keeps every wallet and the whole ledger in step with the sessions, stale fee updates included |
| Conservation.LedgerIsConserved | src/games/registration-payment.util.ts:47-84 | in every run all wallets together hold the start total less the recorded entries plus the prizes of finished sessions and the recorded refunds; likewise for bonus cartelas |
| Conservation.MoneyIsConserved | src/games/game-lifecycle.service.ts:278-348 | in every steady run that is the start total less today's fee for each money-paid cartela of sessions not cancelled plus the prizes of finished ones |
| Conservation.PayoutIsExact | src/bingo-claims/bingo-claims.service.ts:239-322 | in every run FINISHED exactly when prize credits exist; one per winning cartela, to its owner, together the fair split of the whole prize |
| Conservation.WindowClosesIff | src/bingo-claims/bingo-claims.service.ts:234-312 | in every run a window has a winner and is not yet finalized, so the finalizer's "without winners" and "already finalized" are unreachable; it closes exactly when due at the sampled clock and the prize has a cent per winner |
| Conservation.DirectRoundPaysIff | src/game-engine/game-engine.service.ts:244-262 | after any run, a round started directly, of whatever category, pays a due window exactly when the resolved fee leaves a part for the prize; otherwise its prize is 0 for ever and every payout rolls back |
| Conservation.CancelUndoesRegistering | src/games/game-lifecycle.service.ts:240-348 | in steady runs, whatever single, bulk and confirmed registrations a session saw, once it is cancelled every wallet is what it was before the session existed |
| Conservation.RefundIsExact | src/games/game-lifecycle.service.ts:287-348 | in every run a user has one refund for a session exactly when it was cancelled and the user paid; in steady runs of everything paid |
| AccountSteps.RefundIsPaid | src/games/game-lifecycle.service.ts:314-330 | with frozen prices, today's fee times the money-paid cartelas is what was paid for them |
| AccountSteps.PayWinnersPays | src/bingo-claims/bingo-claims.service.ts:262-284 | the payout loop credits each winner once under a new ledger key and nothing else moves |
| AccountSteps.SoleWinner | src/bingo-claims/bingo-claims.service.ts:445-516 | a manual approval has one winner, who gets the whole prize |
| FeeRace.CommitKeepsPricesIff | src/games/games.service.ts:878-922 | the fee commit keeps every cartela bought at the session's fee exactly when the READY session is empty or the fee stays |
| FeeRace.RefundAfterCommitIff | src/games/games.service.ts:878-922 | after a commit, a cancel refunds a user what was paid exactly when the fee stayed or the user paid no money |
| FeeRace.StaleFeeBreaksRefund | src/games/games.service.ts:878-922 | a run in which a stale fee update leaves a player richer by the difference |
| PrizeSplit.SplitPrizeAmount | src/bingo-claims/prize-split.util.ts:3-31 | fails exactly without winners; otherwise shares add up to the prize, do not increase, differ by at most one cent |
| PrizeSplit.FairSplitIsUnique | src/bingo-claims/prize-split.util.ts:3-31 | no other split has these properties |
| PrizeSplit.SharesPositiveIff | src/bingo-claims/prize-split.util.ts:3-31 | every share is payable exactly when the prize has a cent per winner |
| WindowRace.WindowOpensOnce | src/bingo-claims/bingo-claims.service.ts:1252-1438 | for claimers whose reads and commits interleave in any way with draws, early closing and the payout: once anyone has won exactly one claimer opened the window, and winners and winning cartelas are one for one |
| WindowRace.OneEndUnlessClosedEarly | src/bingo-claims/bingo-claims.service.ts:396-408 | as long as nobody closes the window early, all winners were told the session's one end time |
| WindowRace.CommitIsWholeClaimIff | src/bingo-claims/bingo-claims.service.ts:965-1090 | a commit does what a whole claim at its clock would, or nothing, exactly when it does not win by a window closed or paid meanwhile, nor on balls that were not yet all |
| WindowRace.EveryWinnerPaidIff | src/bingo-claims/bingo-claims.service.ts:234-322 | in every race, once the round is finished all winners are paid, exactly when nobody that saw a window still open by its own end committed after the payout |
| WindowRace.AllStoreLastBallIff | src/bingo-claims/bingo-claims.service.ts:1013-1044 | in every race all VALID claims store the last called ball exactly when no ball was drawn between a winner's read and its commit |
| WindowRace.TurnedDownIff | src/bingo-claims/bingo-claims.service.ts:1403-1438 | a claimer is turned down exactly when its cartela was decided meanwhile or its clock is past the end it goes by: the session's when it saw PLAYING, otherwise the one it saw |
| RaceRuns.FinalizeIsPayout | src/bingo-claims/bingo-claims.service.ts:234-322 | in every run of the system the race's payout move pays and leaves what the finalizer's transaction does, or nothing |
| RaceRuns.LateJoinerIsNotPaid | src/bingo-claims/bingo-claims.service.ts:1403-1438 | a race that ends with a winner of a finished round who is not paid |
| RaceRuns.BallBetweenIsMissed | src/called-numbers/called-numbers.service.ts:47-96 | a race in which a valid claim stores no ball although one was called before it committed |
| BingoClaimsServices.BingoClaimsService.ClaimBingo | src/bingo-claims/bingo-claims.service.ts:148-232 | the claim transaction, branch by branch, with roll back when the cartela cannot be marked |
| BingoClaimsServices.BingoClaimsService.OpenOrJoinWindow | src/bingo-claims/bingo-claims.service.ts:1252-1438 | the compare-and-set on PLAYING, the join within end plus grace, the claim row with its ball |
| BingoClaimsServices.BingoClaimsService.FinalizeWinnerWindow | src/bingo-claims/bingo-claims.service.ts:234-322 | lock, split, credit loop, finish, requeue, and the opener, in one transaction; every failure leaves the database as it was |
| BingoClaimsServices.BingoClaimsService.FinalizeWinnerWindowEarly | src/bingo-claims/bingo-claims.service.ts:396-428 | moves the end to now and then finalizes, opener included, in a second transaction |
| BingoClaimsServices.BingoClaimsService.ApproveClaim | src/bingo-claims/bingo-claims.service.ts:445-516 | the approval with `finishGameWithWinner` and the opener inside, all or nothing |
| BingoClaimsServices.BingoClaimsService.RejectClaim | src/bingo-claims/bingo-claims.service.ts:584-655 | the rejected claim is INVALID and its cartela BLOCKED, the other claims stand, and the session is PLAYING again |
| Bulk.RegisterAllAppends | src/games/games.service.ts:1346-1387 | registering a list in chunks is registering it whole |
| Bulk.SameWithoutBigGames | src/games/games.service.ts:1544-1843 | outside Big Games the items the bulk registers are those that `registerCartela`, limits included, would register one by one |
| Bulk.BigGameBulkAgreesIff | src/games/games.service.ts:5245-5288 | of the two internal functions: in a Big Game bulk and single registration agree exactly when the bulk ends within the limit or adds nothing |
| QueueRuns.BigGamesStayApart | src/games/games.service.ts:5180-5188 | in every run from a start without queued Big Games, a Big Game with a READY session has a READY slot and none is ever NEXT |
| QueueRuns.BulkNeverMeetsBigGames | src/games/games.service.ts:1306-1317 | in every such run, from the session a bulk request resolved and whatever happens meanwhile, each chunk registers what single registrations, limits included, would |
| BulkRuns.InterleavedRequest | src/games/games.service.ts:1346-1387 | with any events between its chunks, what a request reports as registered is the player's when it answers, even when a later chunk throws; unless it throws, every item is reported once |
| Bulk.FailureLasts | src/games/games.service.ts:1594-1603 | after the first failed payment no later item of the list could be registered, so stopping loses nothing |
| Bulk.EachItemReportedOnce | src/games/games.service.ts:1594-1812 | successes and failures together are the items, repeats included |
| Bulk.ReportsAreTrue | src/games/games.service.ts:1594-1812 | a reported success is owned at the end; what became owned is reported; without a payment failure owned and reported agree |
| Bulk.ClosedChangesNothing | src/games/games.service.ts:1374-1383 | while registration is closed a list changes nothing |
| Bulk.CachesStayTrue | src/games/games.service.ts:1483-1560 | what the chunk reads once (openness, locks, holds) is what it would read before each item |
| Bulk.ItemOutcome | src/games/games.service.ts:1605-1790 | deciding an item from the caches gives what registering it at that point gives |
| GamesServices.GamesService.RegisterCartelasBulkChunk | src/games/games.service.ts:1430-1860 | the chunk loop with its caches leaves the state of registering one by one (a repeated id is charged once) and the report defined above |
| GamesServices.GamesService.RegisterCartelasBulk | src/games/games.service.ts:1319-1428 | refused exactly when too long or not open yet; closed means all failed and nothing changed; otherwise the state of registering one by one and a true report |
| GamesServices.ChunkCartelaItems | src/games/registration-limits.ts:7-17 | chunks in order, all full but the last, none empty, together the list |
| GamesServices.GamesService.RegisterCartela | src/games/games.service.ts:1092-1253 | insert, pay, pot, hold in steps; a failed payment rolls all back |
| GamesServices.GamesService.ConfirmReservation | src/games/games.service.ts:2363-2515 | the confirmation of a hold, in steps, with all its refusals |
| SessionSteps.Seated | src/games/games.service.ts:1165-1217 | a paid cartela keeps one registration per cartela, the pot, and the exclusivity of holds |
| GameLifecycleServices.GameLifecycleService.CancelSession | src/games/game-lifecycle.service.ts:199-348 | claim, add up per user, refund each user in any order, void, requeue with the opener behind it; an aborted or refused cancel changes nothing |
| GameLifecycleServices.GameLifecycleService.AddUp | src/games/game-lifecycle.service.ts:287-312 | the totals per user count the user's live cartelas by how they were paid |
| GameLifecycleServices.GameLifecycleService.PayRefunds | src/games/game-lifecycle.service.ts:314-338 | the refund loop, in whatever order, leaves the books with every user refunded |
| GameLifecycleServices.EveryonePaid | src/games/game-lifecycle.service.ts:314-338 | paying only the users in the totals pays everyone |
| GameEngineServices.GameEngineService.StartGame | src/game-engine/game-engine.service.ts:132-285 | starts the slot's READY session or a new one, rolls back on a bad fee configuration |
| GameEngineServices.GameEngineService.FinalizeNoWinner | src/game-engine/game-engine.service.ts:528-590 | ends a due session, blocks its undecided cartelas, closes its pending claims, restores its slot, and opens the next registration |
| GameEngineServices.GameEngineService.FinalizeExpiredNoWinnerSessions | src/game-engine/game-engine.service.ts:501-526 | the sweep ends every due session, one transaction each with its opener, and counts them all: no end, and no opening, keeps a later one from being due |
| CalledNumbersServices.CalledNumbersService.CallNumber | src/called-numbers/called-numbers.service.ts:47-96 | the manual call under its two unique keys |
| CalledNumbersServices.CalledNumbersService.QueryRandomRemainingNumber | src/called-numbers/called-numbers.service.ts:383-416 | picks some number not called yet and says how many there are, or none when all are called |
| CalledNumbersServices.CalledNumbersService.CommitPickedNumber | src/called-numbers/called-numbers.service.ts:232-318 | the later write: only while PLAYING and with the due schedule claimed, it adds the picked number, never a second time, and moves the schedule on, so that it is not due again |
| SessionSteps.OrdersAreCounts | src/called-numbers/called-numbers.service.ts:82-96 | latest order is the count, and the next order is free |
| GameQueue.ListingRepresents | src/games/game-queue.service.ts:26-35 | with distinct orders the listing is the one increasing sequence of the queued standard slots |
| GameQueue.RepresentationIsUnique | src/games/game-queue.service.ts:26-35 | the sequence a queue represents is unique |
| GameQueue.CreateRefines | src/games/game-queue.service.ts:37-74 | creation appends, or for a rule among the first five inserts at position min(5, n), and leaves the order of the others |
| GameQueue.MoveToBackRefines | src/games/game-queue.service.ts:91-104 | requeueing is remove then append |
| GameQueue.RestoreRefines | src/games/game-queue.service.ts:106-145 | restoring a slot after a session removes it or requeues it |
| GameQueue.BackIsLastIff | src/games/game-queue.service.ts:91-104 | the new order is behind all set orders exactly when no order is missing, or all set orders are at most zero |
| GameQueue.ReorderDistinctIff | src/games/game-queue.service.ts:82-89 | reordering keeps orders distinct exactly when no outside queued slot holds one of the new orders |
| GameQueue.AssertTopFiveQueueRuleDiversity | src/games/game-queue-diversity.ts:14-31 | refuses exactly when two of the first five known rules are equal |
| GameQueue.OnlyHeadStarts | src/games/game-queue.service.ts:147-240 | without a due Big Game only the head of the queue can start |
| QueueRuns.QueueStaysOrdered | src/games/game-queue.service.ts:26-145 | in every run from a table with distinct orders whose reorders meet the condition of `ReorderDistinctIff`, orders stay set and distinct, so the listing is the queue's one sequence |
| QueueRuns.OnlyHeadStartsInRuns | src/games/game-queue.service.ts:147-240 | in those runs, without a due Big Game, a slot can start exactly when it is the head of the queue |
| QueueRuns.PartialReorderCollides | src/games/game-queue.service.ts:82-89 | a run in which reordering one of two slots gives both the order 1 |
| QueueRuns.MissingOrderSendsToFront | src/games/game-queue.service.ts:91-104 | a table in which a requeued slot gets order 1 before the others |
| GameQueueServices.GameQueueService.AssignSortOrderOnCreate | src/games/game-queue.service.ts:37-74 | the order for a new slot, and the shift loop that makes room |
| GameQueueServices.GameQueueService.UpdateQueueOrder | src/games/game-queue.service.ts:82-89 | the reorder loop |
| OpenerProofs.OpenerIsIdempotent | src/games/post-game-registration-opener.service.ts:75-321 | at a fixed clock and with a positive duration, a second run changes nothing |
| OpenerProofs.RunWithHead | src/games/post-game-registration-opener.service.ts:201-246 | with a standard READY session present, only the lowest-ordered one may stay empty, the others are cancelled when empty, no slot changes |
| OpenerProofs.CreatedCountdown | src/games/post-game-registration-opener.service.ts:159-162 | a session created behind a live round has no countdown, any other the full duration |
| PostGameRegistrationOpeners.PostGameRegistrationOpenerService.OpenNextRegistration | src/games/post-game-registration-opener.service.ts:75-321 | the opener with its retiring loop and the check of the slot before a session is created |
| CartelaReservations.CartelaReservationService.ReserveCartela | src/games/games.service.ts:1895-2068 | at the clock sampled before: expire, release, refresh or create; refused without a trace when someone else holds the cartela |
| CartelaReservations.CartelaReservationService.ReserveCartelasBulk | src/games/games.service.ts:2082-2330 | the bulk loop over holds, at the clock sampled before |
| CartelaReservations.CartelaReservationExpirerService.FindDueReservations | src/games/cartela-reservation-expirer.service.ts:64-80 | finds exactly the due active holds |
| CartelaReservations.CartelaReservationExpirerService.ExpireReservations | src/games/cartela-reservation-expirer.service.ts:81-88 | the write by ids, which looks at nothing else |
| CartelaPrefix.BuildCartelaNumberPrefixRanges | src/cartelas/cartelas-prefix.util.ts:18-44 | the loop yields one range per number of digits |
| CartelaPrefix.RangesMatchPrefix | src/cartelas/cartelas-prefix.util.ts:18-44 | a number below ten to the tenth is in a range exactly when its decimal text starts with the prefix |
| CartelaPrefix.ExactIffNoLeadingZero | src/cartelas/cartelas-prefix.util.ts:18-44 | the ranges are exact exactly for prefixes without a leading zero |
| CartelaPrefix.RangesIncrease | src/cartelas/cartelas-prefix.util.ts:18-44 | ranges are disjoint and increasing |
| CartelaCatalog.DecodeUndoesEncode | src/cartelas/cartelas-prefix.util.ts:46-70 | a cursor decodes to its number and id, even when the id holds a colon |
| CartelaCatalog.FollowPages | src/cartelas/cartelas.service.ts:54-108 | following the cursor until it is null ends, and the pages together are the whole filtered listing |
| CartelaCatalog.PageIsNextBlock | src/cartelas/cartelas.service.ts:133-218 | each page is the next block of the listing |
| CartelaCatalog.FullPageSize | src/cartelas/cartelas.service.ts:133-218 | a full page has the limit when filtered and one more when not |
| PushRuns.NoNotificationTwice | src/notifications/push-delivery-guard.service.ts:62-153 | however filters and logs interleave, a user has at most one row per category and entity |
| PushRuns.EveryRunIsCapped | src/notifications/notifications.service.ts:327-366 | in every interleaving of broadcasts and single pushes, any 15 minutes hold at most 5 non-exempt rows of a user and any 30 minutes at most 2 marketing rows, plus one for each request beyond the first under way for the user at once |
| PushRuns.RunIsCappedIff | src/notifications/notifications.service.ts:327-366 | in every interleaving a user is within a cap exactly when no request ever wrote a new row for the user without room at that moment |
| PushRuns.StepIsCappedIff | src/notifications/notifications.service.ts:363-366 | after any run, a request keeps a user within a cap exactly when the user was and it writes nothing new or has room |
| PushRuns.LogKeepsCapIff | src/notifications/push-delivery-guard.service.ts:62-153 | writing a delivery to distinct users keeps a user's cap exactly when it writes nothing new for the user or the user has room at that moment |
| PushRuns.UsersStayDistinct | src/notifications/push-delivery-guard.service.ts:23-56 | every request of every run addresses distinct users, none of them empty |
| PushRuns.RoomIsOneCount | src/notifications/push-delivery-guard.service.ts:155-189 | with no younger rows that room is the filter's count, taken when the rows are written |
| PushRuns.OverlapExceedsCap | src/notifications/notifications.service.ts:327-366 | a run in which two overlapping requests leave three marketing rows in 30 minutes |
| PushRuns.PushNotificationsService.BeginPush | src/notifications/notifications.service.ts:240-253 | the filter that begins a request is one step of the run so far, and goes on only with someone to send to |
| PushRuns.PushNotificationsService.ReserveBroadcast | src/notifications/notifications.service.ts:363-366 | the broadcast's reservation, after its filter, is one log step of the run so far and says how many rows it wrote |
| PushRuns.PushNotificationsService.FinishSinglePush | src/notifications/notifications.service.ts:240-266 | the single push is logged exactly when a device got it |
| Databases.Database.ApplyRegistrationPayment | src/games/games.service.ts:5622-5660 | the payment by source under a key used once: the payer's wallet loses exactly the fee or one bonus cartela, nobody else's moves, or nothing at all happens |

## Left out

- Realtime messages, sending pushes to devices, audit log, metrics, caches, serializers, controllers: no effect on the modelled state.
- The rule evaluator: its verdict on a board is a free parameter of a claim.
- Auto-call scheduling columns (`autoCallEnabled`, `nextAutoCallAt`) are not in the tables: draws may happen at any time while PLAYING, which includes every schedule, and the pause of the schedule during a claim.
- CalledNumbersServices.CalledNumbersService.CommitPickedNumber: the schedule comes in and goes out as a value, because no other modelled flow depends on it.
- Interleavings inside one database transaction and isolation levels, except in `WindowRace`, where a claim's reads are one step and its writes another.
- PostGameRegistrationOpeners.PostGameRegistrationOpenerService.OpenNextRegistration: the two duration settings it copies to the slot are not columns of the model.
- GamesServices.GamesService.RegisterCartelasBulk: the loop over chunks has no other events between them; `BulkRuns.InterleavedRequest` is about requests that have.
- BulkRuns.InterleavedRequest: the retry of a chunk whose transaction failed to start or conflicted is not a step of its own; a chunk that did not commit has changed nothing.
- PushRuns.EveryRunIsCapped: the several reads of one filter call are one step.
- Slot updates by hand (`updateSlotStatus`), clearing the queue, and the repair and retention jobs: manual overrides outside the transition table.
- Deposits, withdrawals and bonus grants: wallets move only through games here.
- Decimal rounding: amounts are whole cents; wallet rows are assumed to exist for registered users (a foreign key).
- Play codes, dates, time zones, shuffled catalogue pages, base64url, Unicode white space in search texts, number formats of hand-made cursors.
- `getCurrentOperations`, results pages other than the winning-ball choice, authentication, receipts, reports, leaderboards.
- GamesServices.GamesService.RegisterCartela: the read of an existing registration happens before the transaction in the source and inside the step here; the unique key gives the same answer.
