# Seat reservation, verified

A Dafny model of the cinema ticket booking system, and proofs about it. At its core is the seat-reservation
protocol: any number of clients and workers hold, release, confirm and expire seats over two stores that
share no transaction. Redis keeps ownership keys with a time to live, behind three Lua scripts; MongoDB keeps
seats, holds, bookings, audit entries and outbox events, behind four conditional transactions and a handful
of unique indexes. Around it are the delivery of outbox events, the consumption of notifications, the seat map
in the browser and the rate limiter for holds.

`dafny verify dfyconfig.toml` checks everything. There is nothing to execute.

## How it is built

| Files | Content |
|---|---|
| `Domain`, `Naming`, `Sorting`, `Money` | documents, ids and how they are written, requests and how they are recognised, booking lines and totals |
| `RedisLock` | the three scripts, as looping methods of a class over the keyspace |
| `Database`, `StoreInvariant` | the four transactions, as functions on database values and as methods that change the collections in place and roll back; what each of them keeps |
| `Protocol`, `ProtocolInvariant` | each request as a small program with its local variables; one step is one clock reading, one Redis script, one query or one transaction |
| `Outcomes`, `Service` | what a caller may count on, under which circumstances which answer, without a word of the step programs; and the four operations as they are written, with loops and early returns, proved to keep that, and to be uninterrupted runs of those programs |
| `Ledger`, `Runs`, `Conservation`, `Backlog`, `Answers`, `Progress` | an atomic ledger, its refinement, and what holds over all runs: safety, the cause of every answer, and that requests get to their end |
| `Timed`, `TimedRuns`, `Truth`, `Race`, `BookingRace` | the same requests with real scripts and one shared clock |
| `Outbox`, `Notifications`, `SeatMap`, `RateLimit` | the smaller state machines |

The protocol is proved in two layers. In `Runs` every clock reading and every answer of Redis is arbitrary, at
every step: no result there trusts either, so no double booking is possible whatever Redis forgets and however
clocks jump. `Timed` adds a keyspace changed only by the scripts and one clock that never goes back; requests
still act on readings they took earlier. Only results about live holds and leaked keys need that layer.

## Assumptions

- A transaction commits or aborts, and the client knows which; a script runs as a whole or not at all. In the
  timed layer a Redis call whose answer is lost may or may not have run.
- A unique index aborts the transaction of an insertion that violates it.
- Times are whole milliseconds, and a key written with a time to live of n is there while less than n has passed.
- Random ids, tokens and UUIDs are numbers; the untimed layer does not even assume them to be fresh, the timed
  layer assumes fresh hold ids. `Naming` proves that writing ids as text loses nothing.
- In the timed layer: one shared clock that never goes back, and no loss of Redis data.
- A publication to RabbitMQ that is not confirmed has not been queued.
- The seat map follows a log of changes in database order, and each connection delivers a contiguous stretch of it.

## Where the code and its documentation differ

The documentation says that reusing a key for the same request returns the existing hold. The code does so if
and only if the request finds that hold in one of its two queries for it, the one it starts with or the one
after a duplicate key: `Runs.ExistingHoldExactly`. A repeat that follows an answer always does, unless the
database is out of reach (`Runs.RepeatedCreateSucceeds`). A concurrent twin may not: if it looks too early, and
asks for its keys while the other request is about to store its hold or the stored hold is live, it never gets
them (`Race.PreparedHoldBlocks`, `Race.LiveHoldBlocks`), so it never comes to the second query and is answered
`SEAT_UNAVAILABLE`, or `LOCK_SERVICE_UNAVAILABLE` if Redis fails. `Race.TwinIsRefused` is a run in which that
happens. The model follows the code.

Of confirmations, too, the documentation says that repeating the same hold returns its existing booking, and
`backend/cmd/concurrency-test/main.go:140-147` expects two concurrent confirmations to succeed with one booking.
The code answers with the existing booking if and only if one of its three queries for it, by key, by hold, or by
hold again after a failed transaction, finds it stored: `Runs.ExistingBookingExactly`. A repeat that follows an
answer does, unless its key is spent on another hold or the database is out of reach
(`Runs.RepeatedConfirmSucceeds`). A concurrent twin is refused with `HOLD_EXPIRED` if it passes its first two
queries before the booking is stored and loads its hold after it (`Runs.LateConfirmIsRefused`), or verifies keys
that have been released by then (`BookingRace.UnlockedHoldIsRefused`). `BookingRace.ConfirmTwinIsRefused` is a run
in which a user is told so of a hold that has not expired and that the same user has just booked.

The outbox worker's write after a failed publication has no condition on the status of the event, so it can take
back a publication; it is the only step that can (`Outbox.WhatUndoesPublished`). That takes a worker which has
held the event past its lease at some earlier time (`Outbox.TakenBackMeansLate`), but the write need not be its
own: `Outbox.SlowWorkerUndoesPublished` is a run in which the late worker writes, and
`Outbox.TimelyWorkerUndoesPublished` one in which the late worker has published the event, and a worker within its
lease takes that back. As long as nobody holds the event past its lease, it stays published
(`Outbox.PublishedStays`).

## Model

| member | source | states |
|---|---|---|
| `Runs.NoDoubleBooking` | backend/internal/service/booking.go:284-293 | in every reachable state two bookings share no seat, whatever Redis answers and clocks read |
| `Runs.SoldSeatStaysSold` | backend/internal/service/booking.go:102-103 | a booked seat keeps its status and its booking in every later state, and the booking stays as it was made |
| `Runs.RefinesLedger` | backend/internal/service/booking.go:100-112 | every step of every request is one step of the atomic ledger, or none; Redis calls, queries and aborted transactions are none |
| `Runs.RunRefinesLedger` | backend/internal/service/booking.go:160-174 | a whole run is a run of the ledger that starts with every place free |
| `Ledger.HoldTxRefines` | backend/internal/service/booking.go:100-112 | a committed hold transaction takes exactly the hold's places, all free or past their deadline |
| `Ledger.ReleaseTxRefines` | backend/internal/service/booking.go:160-174 | a committed release gives up exactly the places its hold still has |
| `Ledger.ConfirmTxRefines` | backend/internal/service/booking.go:273-300 | a committed confirmation sells exactly the hold's places, each held by it with a deadline ahead |
| `Ledger.ExpireTxRefines` | backend/internal/service/booking.go:368-382 | an expiry that claims its hold gives up the places it still has; any other changes nothing |
| `Ledger.ReleaseUndoesHold` | backend/internal/service/booking.go:160-174 | releasing a hold just made frees its seats, with nothing of the hold left on them, and changes nothing else |
| `Ledger.HoldTxExactly` | backend/internal/service/booking.go:101-112 | the hold transaction commits if and only if the ledger can enter it, each seat is named once and no index stands in the way |
| `Ledger.ConfirmTxExactly` | backend/internal/service/booking.go:273-300 | the confirmation commits if and only if the hold is the user's, the ledger can enter the sale and no index stands in the way |
| `Ledger.ReleaseTxExactly` | backend/internal/service/booking.go:161-167 | the release commits if and only if the hold is the user's and open |
| `Ledger.ExpireTxExactly` | backend/internal/service/booking.go:369-375 | the expiry has an effect if and only if the hold is open and its time is up |
| `Ledger.SoldForever` | README.md:198-198 | no entry of the ledger changes a sold place |
| `Ledger.HeldPlaceStays` | docs/architecture.md:17-20 | a held place stays held until its hold ends or someone takes it past its deadline |
| `Runs.CreatedHoldTookOnce` | backend/internal/service/booking.go:100-130 | every new-hold response stands for exactly one Take of the run, by that request, for those seats and that expiry |
| `Runs.CreatedBookingSoldOnce` | backend/internal/service/booking.go:273-319 | every new-booking response stands for exactly one Sell of the run, by that request, of that hold to that booking |
| `Runs.EndingEntry` | backend/internal/service/booking.go:161-171 | a hold leaves ACTIVE if and only if the step gives it up or sells it |
| `Runs.OneWinner` | backend/internal/service/booking.go:367-389 | of all confirmations, releases and expiries of a hold at most one takes it out of ACTIVE |
| `Runs.EndedStaysEnded` | backend/internal/service/booking.go:369-375 | the end states of a hold are final, and so is its document |
| `Runs.OnlyItsHoldFreesASeat` | backend/internal/service/booking.go:168-171 | a seat becomes free only in the step that ends the very hold it was locked for: stale work never frees the seat of a later hold or of a booking |
| `Runs.CollectionsAgree` | backend/internal/service/booking.go:277-300 | in every reachable state a locked seat names an ACTIVE hold that lists it, with its user and expiry; a hold has one to ten seats, has at most one booking, and is CONFIRMED if and only if it has one; a booking has its hold's seats, each booked to it, one success audit and one outbox event; the release and timeout audits of a hold are as many as its status says |
| `Runs.OneHoldPerKey` | backend/internal/service/booking.go:58-66 | all successful CreateHold responses to one user and key carry one hold, which is the only one stored and matches the request |
| `Runs.OneBookingPerHold` | backend/internal/service/booking.go:201-214 | all successful Confirm responses for one hold carry one booking, which is the hold's only one |
| `Runs.OneBookingPerKey` | backend/internal/database/mongo.go:65-69 | at most one booking is stored per user and confirmation key |
| `Runs.RepeatedCreateSucceeds` | backend/internal/service/booking.go:58-66 | a CreateHold repeated after its answer gets the same hold again, unless the database is out of reach |
| `Runs.RepeatedConfirmSucceeds` | backend/internal/service/booking.go:201-214 | a Confirm repeated after its answer gets the same booking again, also under another key, unless that key is spent on another hold |
| `Runs.ExistingBookingExactly` | backend/internal/service/booking.go:201-214 | a confirmation is answered with an existing booking if and only if, in its query by key, in that by hold or in that after a failed transaction, it was stored for the call's user and hold |
| `Runs.StepFindsBooking` | backend/internal/service/booking.go:302-305 | a single step gives that answer if and only if it is one of the three queries, the database can be reached and the booking is there |
| `Runs.LateConfirmIsRefused` | backend/internal/service/booking.go:215-228 | a confirmation that comes to load its own hold when that has ended, be it by its twin's booking, is answered HOLD_EXPIRED, or an internal error if the database is out of reach |
| `Runs.AnswersStay` | backend/internal/service/booking.go:130-130 | an answered request keeps its answer |
| `Answers.RefusedExactly` | backend/internal/service/booking.go:50-402 | a request is refused with a code if and only if one of its steps has met a reason for that code: for each of the twelve codes the steps and circumstances that lead to it |
| `Answers.UndoHasCause` | backend/internal/service/booking.go:107-114 | a hold request compensates exactly for the error of its own transaction |
| `Answers.ReloadHasCause` | backend/internal/service/booking.go:277-303 | a confirmation looks again exactly for the error of its own transaction |
| `Answers.TakenWhenOpen` | backend/internal/service/booking.go:68-82 | whoever takes seats has found the showtime open before, and every seat it takes there |
| `Answers.TakeIsAnswered` | backend/internal/service/booking.go:129-130 | whoever takes seats is answered with the new hold |
| `Answers.SellIsAnswered` | backend/internal/service/booking.go:315-319 | whoever sells a hold has its booking in hand, and is never told anything else |
| `Progress.OwnHoldIsGivenUp` | backend/internal/service/booking.go:148-191 | a release that comes to load its own user's hold is answered with that hold ended, whoever has ended it, unless a step of its own finds the database out of reach |
| `Progress.ReleaseGoesOn` | backend/internal/service/booking.go:156-160 | if it finds the hold ACTIVE, it goes on to its transaction |
| `Progress.ReleaseCommits` | backend/internal/service/booking.go:160-167 | the transaction gives the hold up if and only if it is still ACTIVE by then |
| `Progress.ExpiredIsCounted` | backend/internal/service/booking.go:353-401 | a sweep whose checks get through has counted every hold that a step of its own has expired |
| `Progress.DueIsExpired` | backend/internal/service/booking.go:369-375 | a sweep's step within reach of the database expires the hold it comes to if and only if that is still ACTIVE |
| `Progress.RequestsEnd` | backend/internal/service/booking.go:50-402 | a request ends within as many steps of its own as it has left, unless it repeats a transaction: holds within 7, releases within 3, confirmations within 11, sweeps within 3 n + 1 once they have their list of n |
| `Progress.MoveUsesUp` | backend/internal/service/booking.go:50-402 | every step but a sweep's query and a repetition brings a request nearer to its end |
| `Runs.CountedOnce` | backend/internal/service/booking.go:353-365 | across all workers an expired hold is counted at most once, and the counter counts expired holds |
| `Conservation.SeatsConserved` | backend/internal/service/booking.go:103-109 | booked seats number as many as the seats of all bookings and of all confirmed holds; available, locked and booked seats together are those there were at the start |
| `Conservation.BookingsAddUp` | backend/internal/service/booking.go:263-270 | a booking lists exactly the seats of its hold, each once, at the price and label the seat had from the start, in label order, and its total is their sum |
| `Backlog.QueryTakesBacklog` | backend/internal/service/booking.go:344-351 | the sweep's query covers the backlog of an earlier time, or is filled with it |
| `Backlog.SweepDrains` | backend/internal/service/booking.go:342-365 | one sweep without errors takes `limit` holds off the backlog of an earlier time, or leaves of it only holds stored meanwhile that were already due, whatever else goes on |
| `Backlog.BacklogCleared` | backend/internal/service/booking.go:342-365 | ceil(n / limit) sweeps leave of a backlog of n holds at most as many as were stored already due meanwhile: none if no hold was, however many fall due |
| `StoreInvariant.HoldTxPreserves` | backend/internal/service/booking.go:100-112 | the hold transaction keeps the database in order, whatever its clock reading |
| `StoreInvariant.ReleaseTxPreserves` | backend/internal/service/booking.go:160-174 | so does the release, whatever stale document it was started with |
| `StoreInvariant.ConfirmTxPreserves` | backend/internal/service/booking.go:273-300 | so does the confirmation, for any draft made from the hold |
| `StoreInvariant.ExpireTxPreserves` | backend/internal/service/booking.go:368-382 | so does the expiry |
| `ProtocolInvariant.PcOkStable` | backend/internal/service/booking.go:215-240 | what a request has read stays true of the database, whatever the others do meanwhile |
| `ProtocolInvariant.AdvanceOk` | backend/internal/service/booking.go:50-402 | every step of every request keeps the database in order; what it answers of stored documents is true: the holds and bookings of successful answers, and of the refusals that the key is spent on another request, that the hold is another user's and that the seats are not seats of the showtime; HOLD_INVALID is never answered (for HOLD_EXPIRED see `Truth.HoldExpiredIsTrue`) |
| `ProtocolInvariant.DraftOk` | backend/internal/service/booking.go:239-270 | the booking prepared from seats read in any order has exactly the hold's seats, in label order, with their sum as total |
| `ProtocolInvariant.StepKeepsInv` | backend/internal/service/booking.go:50-402 | the whole invariant is kept by every step, and nothing stored is ever lost |
| `Service.BookingService.CreateHold` | backend/internal/service/booking.go:50-131 | the answer that `Outcomes.CreateOutcome` names for the circumstances, and one uninterrupted run of the step program; on success the seats locked, the hold stored and all keys written, otherwise the database untouched and, unless the compensating release fails, what Redis shows as well |
| `Outcomes.CreateExactly` | backend/internal/service/booking.go:50-131 | a hold is made if and only if the request is for one to ten seats under a new key, the showtime is open and has them, their keys are free, Redis and the database can be reached, every seat is free or past its lock, and the id is new; each of the eight refusals, and the answer with an existing hold, has its own if-and-only-if |
| `Service.BookingService.ReleaseHold` | backend/internal/service/booking.go:148-192 | the answer that `Outcomes.ReleaseOutcome` names for the circumstances, and one uninterrupted run of the step program; a release leaves the hold RELEASED, every seat it still had free, one audit more and, Redis being up, none of its keys; anything else changes nothing |
| `Outcomes.ReleaseExactly` | backend/internal/service/booking.go:133-191 | a hold is given up if and only if it is stored, the caller's and within reach; HOLD_NOT_FOUND if and only if it is not stored, FORBIDDEN if and only if it is another user's |
| `Service.BookingService.Confirm` | backend/internal/service/booking.go:194-320 | the answer that `Outcomes.ConfirmOutcome` names for the circumstances, and one run of the step program that nobody interferes with, the driver's repetitions of the transaction included; a new booking leaves the hold CONFIRMED, its seats booked to it, the booking, its audit and its outbox event stored and, Redis being up, none of its keys; any other answer changes nothing |
| `Outcomes.ConfirmExactly` | backend/internal/service/booking.go:194-320 | a booking is made if and only if neither the key nor the hold has one, the hold is stored, the caller's, ACTIVE and unexpired at both readings, all its keys carry its ownership, all its seats are still locked for it, everything can be reached and no name of the booking is taken; each of the nine refusals, and the answer with an existing booking, has its own if-and-only-if |
| `Service.BookingService.ExpireDueHolds` | backend/internal/service/booking.go:342-402 | an uninterrupted sweep fetches the earliest due holds; exactly those whose transaction gets through are EXPIRED and their seats freed, exactly those whose check gets through as well are counted, and with Redis up none of their keys is left; all other holds and seats, the bookings and the outbox, and keys of other owners are as they were |
| `Service.AllAreCounted` | backend/internal/service/booking.go:353-365 | if all checks get through, it returns the number of fetched holds less the failed ones |
| `Service.BookingService.FindDue` | backend/internal/service/booking.go:344-351 | the earliest due holds, at most `limit` unless that is 0 |
| `Service.TrailIsSteps` | backend/internal/service/booking.go:50-402 | such a run is a run of the whole system, so every result about interleavings covers it |
| `Service.AnswerIsTrue` | backend/internal/service/booking.go:50-402 | whatever a request meets, it leaves the database in order and its answer is true of it |
| `Database.Store.CreateHold` | backend/internal/service/booking.go:100-112 | the update and the insertion in place, rolled back unless every seat was taken and no index violated |
| `Database.Store.Release` | backend/internal/service/booking.go:160-174 | the guarded update of the hold, then of the seats that still carry it, then the audit |
| `Database.Store.Confirm` | backend/internal/service/booking.go:273-300 | hold, seats, booking, audit and outbox event together, or nothing |
| `Database.Store.ExpireOne` | backend/internal/service/booking.go:368-390 | the claim, and the release of the seats that still carry the hold |
| `RedisLock.Redis.Acquire` | backend/internal/lock/redis.go:12-22 | all keys are written or none; a refusal names the first key that is really taken |
| `RedisLock.Redis.Verify` | backend/internal/lock/redis.go:24-31 | succeeds if and only if every key holds the value; a refusal names the first that does not |
| `RedisLock.Redis.Release` | backend/internal/lock/redis.go:33-42 | deletes exactly the keys that hold the value and returns their number |
| `RedisLock.ReleaseUndoesAcquire` | backend/internal/lock/redis.go:33-42 | releasing after a granted acquisition restores the live keys |
| `RedisLock.ReleaseIsOwnershipSafe` | backend/internal/lock/redis.go:33-42 | a release leaves every key of every other owner, and none of its own |
| `RedisLock.AcquireExcludes` | backend/internal/lock/redis.go:12-22 | overlapping acquisitions exclude each other for the time to live |
| `TimedRuns.LiveHoldOwnsItsSeats` | backend/internal/service/booking.go:68-110 | every seat of an ACTIVE hold that has not expired is locked for it with its user and expiry, despite stale clock readings |
| `TimedRuns.MismatchMeansSeatLost` | backend/internal/service/booking.go:277-290 | the seat count of a confirmation falls short if and only if the hold matches and some seat of it is no longer locked for it |
| `TimedRuns.MismatchMeansTooLate` | backend/internal/service/booking.go:284-290 | then the clock has reached the hold's expiry |
| `TimedRuns.LiveHoldConfirms` | backend/internal/service/booking.go:273-300 | a live hold can be confirmed at any clock reading of the past, but for a booking with the same key, id or number, or a known event |
| `TimedRuns.VerifyFindsLiveHold` | backend/internal/service/booking.go:229-237 | verification never reports a mismatch for a live hold |
| `TimedRuns.OneContenderPerSeat` | docs/architecture.md:6-7 | Redis lets at most one unexpired contender for a seat near the hold transaction |
| `TimedRuns.AbortedHoldLeavesNoTrace` | backend/internal/service/booking.go:113-128 | an aborted hold transaction leaves the database as it was, with no seat or document of the hold |
| `TimedRuns.UndoLeavesNoKey` | backend/internal/service/booking.go:114-114 | after the compensating release no live key carries the hold, and all other owners keep theirs |
| `TimedRuns.LeakedKeysExpire` | backend/internal/lock/redis.go:68-69 | one time to live after nobody is about to acquire for a hold any more, none of its keys is left |
| `TimedRuns.FailedUndoLeaksBriefly` | backend/internal/service/booking.go:113-114 | so it is one time to live after the compensating release was due, even if that fails |
| `Timed.WorldStepKeepsInv` | backend/internal/service/booking.go:84-114 | live holds own their seats and keys in every step of every request with stale readings |
| `Truth.HoldExpiredIsTrue` | backend/internal/service/booking.go:226-237 | a confirmation is answered HOLD_EXPIRED only if its hold has ended or its time is up, on all three paths to that answer |
| `Truth.LiveHoldIsConfirmable` | backend/internal/service/booking.go:277-292 | the transaction of a live hold never fails for the hold or its seats |
| `Runs.ExistingHoldExactly` | backend/internal/service/booking.go:58-66 | a request is answered with an existing hold if and only if, in its first query or in the one after a duplicate key, that hold was stored under its key for the same request |
| `Runs.StepFindsHold` | backend/internal/service/booking.go:116-122 | a single step gives that answer if and only if it is one of the two queries, the database can be reached and the hold is there |
| `Race.LookupDecides` | backend/internal/service/booking.go:58-66 | the first query answers with the stored hold if and only if one is stored under the key for the same request, and refuses the key if and only if one is stored for another |
| `Race.LiveHoldBlocks` | backend/internal/service/booking.go:85-98 | a request that shares a seat with a live hold never gets its keys: it changes nothing and is answered SEAT_UNAVAILABLE, or that Redis is down |
| `Race.PreparedHoldBlocks` | backend/internal/service/booking.go:85-98 | nor does one that shares a seat with an unexpired request that has its keys and has yet to store its hold |
| `Race.TwinIsRefused` | backend/internal/service/booking.go:85-98 | a run in which of two concurrent requests with one key the second is refused its own seats |
| `BookingRace.UnlockedHoldIsRefused` | backend/internal/service/booking.go:229-237 | a confirmation that verifies keys after they have been released is answered HOLD_EXPIRED, or that Redis is down |
| `BookingRace.ConfirmTwinIsRefused` | backend/internal/service/booking.go:201-228 | a run in which of two concurrent confirmations with one key the second is told that the hold has expired, though it has not, and the first has booked it |
| `Naming.NormalizeIds` | backend/internal/service/booking.go:453-478 | accepts a list if and only if every entry decodes; the result has each id once, sorted by its text |
| `Naming.SameHoldRequest` | backend/internal/service/booking.go:490-507 | compares showtimes and lists of ids up to their order |
| `Naming.ObjectIdStrings` | backend/internal/service/booking.go:509-516 | the texts of the ids, in order |
| `Naming.FingerprintExact` | backend/internal/service/booking.go:490-507 | a hold made from one list matches another if and only if showtimes agree and both lists decode to the same set of ids |
| `Naming.NormalFormUnique` | backend/internal/service/booking.go:453-478 | lists with the same set of ids have one normal form |
| `Naming.CaseDoesNotMatter` | backend/internal/service/booking.go:458-459 | letter case does not change the id a text decodes to |
| `Naming.SpacesDoNotMatter` | backend/internal/service/booking.go:458-459 | neither do outer spaces |
| `Naming.HexRoundTrip` | backend/internal/service/booking.go:463-463 | the text of an id decodes to the id, and has no colon |
| `Naming.ConflictNamesTheSeat` | backend/internal/service/booking.go:92-97 | what follows the last colon of a refused key is its seat |
| `Naming.KeyTextInjective` | backend/internal/lock/redis.go:51-53 | different showtime seats have different keys |
| `Naming.OwnerTextInjective` | backend/internal/lock/redis.go:54-56 | different holds, users or tokens have different ownership values |
| `Naming.Keys` | backend/internal/lock/redis.go:58-66 | the keys of the given seats, in order |
| `Naming.KeysOfHold` | backend/internal/lock/redis.go:58-66 | for a stored hold they are its seats in stored order: all requests lock in one order |
| `Money.BuildLines` | backend/internal/service/booking.go:263-269 | the lines of the seats read, in label order, with their 64-bit sum |
| `Money.SumSort` | backend/internal/service/booking.go:269-269 | sorting the lines does not change their sum |
| `Money.WrapExact` | backend/internal/service/booking.go:264-268 | the total is the true sum if and only if that fits 64 bits |
| `Sorting.SortSorts` | backend/internal/service/booking.go:269-269 | sorting puts a list in order (it keeps its contents by its own contract) |
| `Sorting.SortedUnique` | backend/internal/service/booking.go:499-506 | two sorted lists with the same contents are equal, which is what comparing them one by one relies on |
| `Outbox.Collection.Claim` | backend/internal/worker/processor.go:79-86 | the event that has waited longest gets a lease of 30 seconds and one more attempt |
| `Outbox.Collection.Settle` | backend/internal/worker/processor.go:88-101 | a confirmed event is published if it is still being processed; any other is put back with its pause |
| `Outbox.BackoffGrows` | backend/internal/worker/processor.go:98-99 | the pause grows with the attempts and is one minute from the sixth on |
| `Outbox.BackoffDoubles` | backend/internal/worker/processor.go:98-98 | the pause begins with one second and doubles until it would pass the minute |
| `Outbox.ClaimedIsLeased` | backend/internal/worker/processor.go:81-82 | until its lease ends, nobody else can claim a claimed event |
| `Outbox.FailedAttemptPauses` | backend/internal/worker/processor.go:98-99 | after a failed attempt an event can be claimed if and only if its pause is over |
| `Outbox.AttemptsAreClaims` | backend/internal/worker/processor.go:82-82 | the attempts that an event records are the times it has been claimed in the run |
| `Outbox.ConfirmedIsPublished` | backend/internal/worker/processor.go:94-96 | a confirmed attempt on an event that nobody has held past its lease publishes it |
| `Outbox.OldestFirst` | backend/internal/worker/processor.go:84-84 | no claimable event is passed over for one that was due later |
| `Outbox.NeverStalls` | backend/internal/worker/processor.go:79-101 | every unpublished event can be claimed again 60 seconds after it was last really written, whatever crashed |
| `Outbox.StatusTellsTheTruth` | backend/internal/worker/processor.go:81-96 | an event has a lease if and only if it is being processed, and is published only if the broker confirmed it |
| `Outbox.OneWorkerPerEvent` | backend/internal/worker/processor.go:79-101 | as long as nobody has held an event past its lease, no two workers hold it |
| `Outbox.PublishedStays` | backend/internal/worker/processor.go:94-100 | as long as nobody has held it past its lease, a published event stays as it is |
| `Outbox.TakenBackMeansLate` | backend/internal/worker/processor.go:94-100 | whenever a step takes back a publication, some worker has held that event past its lease before |
| `Outbox.WhatUndoesPublished` | backend/internal/worker/processor.go:98-100 | a step takes back a publication if and only if it writes a failed attempt on that event |
| `Outbox.SlowWorkerUndoesPublished` | backend/internal/worker/processor.go:98-100 | a run in which a worker past its lease takes back a publication |
| `Outbox.TimelyWorkerUndoesPublished` | backend/internal/worker/processor.go:94-100 | a run in which a worker within its lease takes back what a worker past its lease has published |
| `Outbox.WorkersOnlyTouch` | backend/internal/worker/processor.go:79-101 | workers change the delivery state of events only, which is what the booking protocol relies on |
| `Notifications.Consumer.Notify` | backend/internal/worker/processor.go:144-183 | succeeds if and only if the event is recorded, or its email goes out and is recorded |
| `Notifications.Consumer.Handle` | backend/internal/worker/processor.go:114-139 | what becomes of a delivery: acknowledged with a record, queued again with the next retry count, or dead-lettered |
| `Notifications.HandledAsWritten` | backend/internal/worker/processor.go:114-183 | the steps of a delivery, taken without interruption, do what the handler does: same fate of the message, same records |
| `Notifications.GoodDeliverySucceeds` | backend/internal/worker/processor.go:144-183 | a delivery that meets no trouble is acknowledged and recorded, with one email, or none if the event was recorded before |
| `Notifications.RecordedIsAcknowledged` | backend/internal/worker/processor.go:156-158 | whoever finds the event recorded acknowledges the message, without an email |
| `Notifications.RecordedIsNotSentAgain` | backend/internal/worker/processor.go:156-159 | once an event is recorded, no message about it that is not just being sent is ever sent |
| `Notifications.DeadAfterAllRetries` | backend/internal/worker/processor.go:117-138 | if every retry gets out, a message is dead-lettered only after handlings with all retry counts from its own on: 0, 1, 2 and 3 if it came with none |
| `Notifications.AtMostFourTimes` | backend/internal/worker/processor.go:117-137 | a message is handled at most four times, with strictly increasing retry counts, whatever header it came with |
| `Notifications.AcknowledgedIsRecorded` | backend/internal/worker/processor.go:156-181 | an acknowledged message has a record of its event, and the record stands for an accepted email |
| `Notifications.MessagesStay` | backend/internal/worker/processor.go:117-138 | no message is lost or changes its event, and its end is final |
| `Notifications.CanBeSettled` | backend/internal/messaging/rabbit.go:69-75 | wherever a message is, steps of its own can settle it, within the bound of HandlingEnds |
| `Notifications.HandlingEnds` | backend/internal/worker/processor.go:124-137 | every message is settled after a bounded number of steps of its own |
| `SeatMap.SeatsView.Apply` | frontend/src/views/SeatsView.vue:44-47 | the named seats change their status, in place, all others stay |
| `SeatMap.SeatsView.FinishSync` | frontend/src/views/SeatsView.vue:62-72 | a current response replaces the map and is followed by all buffered events; any other changes nothing |
| `SeatMap.SeatsView.OnMessage` | frontend/src/views/SeatsView.vue:88-107 | the first snapshot message starts a synchronisation; changes are buffered or applied |
| `SeatMap.OverlapConverges` | frontend/src/views/SeatsView.vue:68-71 | a snapshot of prefix k followed by events j to n, with j <= k <= n, is prefix n |
| `SeatMap.LateResponseIgnored` | frontend/src/views/SeatsView.vue:67-75 | once a later request or connection has begun, or the page has been left, neither the response nor the failure of an earlier request ever changes the view |
| `SeatMap.MapFollowsLog` | frontend/src/views/SeatsView.vue:62-113 | once a connection has opened, its snapshot message has arrived and a request made with or after it has been answered as the latest one, then until the connection is replaced, the page is left or the latest request fails, the map is idle unless a synchronisation has been asked for again; and an idle map is exactly the log received, once that includes what the response showed, and the whole log once all of it has arrived |
| `SeatMap.ResponseEndsSync` | frontend/src/views/SeatsView.vue:67-72 | the response to the latest request ends the synchronisation, with an empty buffer |
| `SeatMap.FailureEndsSync` | frontend/src/views/SeatsView.vue:73-78 | so does its failure |
| `SeatMap.StaysIdle` | frontend/src/views/SeatsView.vue:103-104 | from there on nothing is buffered until the next synchronisation or connection |
| `SeatMap.ArrivalShows` | frontend/src/views/SeatsView.vue:44-61 | every change that arrives at an idle map shows its status on the seats it names, and on no other |
| `SeatMap.ResponseShows` | frontend/src/views/SeatsView.vue:68-71 | a response shows the seats of its snapshot with all buffered changes on top |
| `SeatMap.MapConverges` | frontend/src/views/SeatsView.vue:62-79 | the same of a map whose history says that it is tracked |
| `SeatMap.TrackingLasts` | frontend/src/views/SeatsView.vue:73-78 | a map stays tracked until the connection is replaced, the latest request fails or the page is left |
| `RateLimit.Limiter.Allow` | backend/internal/httpapi/middleware.go:89-110 | counts in the current window, or begins a new one of 60 seconds |
| `RateLimit.WindowLimit` | backend/internal/httpapi/middleware.go:89-110 | each window lets at most the limit of its key pass |
| `RateLimit.AllowedExactly` | backend/internal/httpapi/middleware.go:90-104 | a request passes if and only if fewer than the limit of its key have come before it in its window |
| `RateLimit.QuietKeyPasses` | backend/internal/httpapi/middleware.go:90-104 | whoever has been quiet for 60 seconds is let through again |
| `RateLimit.SlidingLimit` | backend/internal/httpapi/middleware.go:89-110 | any interval of 60 seconds lets at most twice the limit pass, whatever other keys do |
| `RateLimit.SlidingLimitIsMet` | backend/internal/httpapi/middleware.go:90-104 | and that bound is met |

## Left out

- SYSTEM_ERROR audit entries, the actors and metadata of audit entries, and created and updated times: nothing reads them back.
- Seat events published through Redis: they list all seats of a hold, even those a guarded update skipped, so the seat map is proved against a log that matches the database.
- The showtime, movie and auditorium documents: one flag says whether the showtime is open for sale; failures to read the others at confirmation are failures to read the seats.
- Checks of the idempotency key's format and of the payment method: they refuse a request before it reads anything.
- Unknown commit outcomes. Repetitions of a transaction by the driver are modelled for the confirmation, which reads the clock anew each time; the other transactions repeat with the same values, which is a later first run.
- Negative limits of a query: ExpireDueHolds takes a natural number.
- sort.Slice leaves the order of equal labels open; the model keeps the order in which the seats were read.
- `Unknown` replies of the scripts: a script answers with a list of the form it returns.
- The channel that carries unroutable messages back from RabbitMQ, the durations of the retry queues, and requeueing after a crash: a message is handled by consumers that do not crash, and publishing its retry and acknowledging it are one step, so a message is never in two places.
- SMTP and the text of emails: sending is one step that may fail.
- Notifications.HandlingEnds: bounds the steps of a message, and does not say that a consumer takes them.
- Headers with a retry count at the edge of 64 bits: they are dead-lettered either way.
- A rate limiter that cannot reach Redis refuses the request, and one without a signed-in user lets it pass; neither touches a counter.
- Selected seats, notices and reconnection delays of the seat view; a failed synchronisation closes the socket, which the model allows at any time.
- HTTP handlers, authentication, sessions, the catalogue, bookings lists, administration, seeding and the WebSocket hub.
