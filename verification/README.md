# Verified model of three services that ration paid provider calls

The gateway, the image relay and the video relay of this repository ration calls that cost
money. Each is a state machine over shared mutable state, written so that work is not lost,
not paid for twice and never over-admitted. This project models four cores of them in Dafny
4.11 and proves what they promise over whole runs. `dafny verify dfyconfig.toml` checks
everything.

How it is built:

- Code that changes fields, tables or queues is a `class` with those fields, and its loops
  are loops (`FairCapacityScheduler`, `MimoReservationScheduler`, `UsageBudgetService`,
  `OperationResultStore`, `UsageObserver`, `TaskStore`, `DiskBlobStore`, `RelayStore`).
  Every method is proved equal to a step of a specification on values, and the promises are
  proved of the runs of that specification.
- Protocols that span requests, store failures and crashes (`/v1/responses`, `runImageTask`,
  the POST of a video operation) are machines whose events may come in any order. In the
  managed text and video protocols an event is the stretch of code between two waits; a crash
  inside a stretch is the failure of its remaining calls followed by a restart. In the life of
  an image task every durable write is an event of its own, any step may fail, and the process
  may die between any two of them.
- What one call comes to is also told without the words of its specification: by permits held,
  totals charged, what a reader is answered and which calls failed (the modules `*Service` and
  `*Outcomes`).
- Identities, tokens and hashes are only compared, so numbers stand for them. Clocks, random
  ids, provider answers and what other parties do are parameters of the events.

| Part | Specification | Code | Theorems |
|---|---|---|---|
| Fair scheduler | `FairScheduler.dfy`, `WaitingLine.dfy`, `Permits.dfy`, `Counters.dfy` | `FairCapacityScheduler.dfy` | `FairInvariant.dfy`, `FairTheorems.dfy`, `FairService.dfy`, `FairOvertaking.dfy` |
| MiMo scheduler | `MimoScheduler.dfy` | `MimoReservationScheduler.dfy` | `MimoInvariant.dfy`, `MimoTheorems.dfy`, `MimoService.dfy`, `MimoDisplacement.dfy`, `MimoOvertaking.dfy`, `MimoStarvation.dfy` |
| Usage ledger | `UsageLedger.dfy` | `UsageBudgetService.dfy` | `UsageBounds.dfy`, `UsageOutcomes.dfy` |
| Result store | `ResultStore.dfy` | `OperationResultStore.dfy` | `ResultStore.dfy`, `ResultOutcomes.dfy` |
| Managed text | `ManagedText.dfy` | (protocol) | `ManagedTextInvariant.dfy`, `ManagedTextTheorems.dfy`, `ManagedTextOutcomes.dfy`, `StreamCharge.dfy` |
| Usage observer | `UsageObserver.dfy` | `UsageObserver.dfy` | `UsageObserver.dfy`, `StreamText.dfy` |
| Image tables | `RelayTasks.dfy` | `RelayTaskStore.dfy` | `RelayQuota.dfy`, `RelayOutcomes.dfy` |
| Image task | `ImageTaskLife.dfy` | `ImageResults.dfy` (loops), `ImageRecovery.dfy` | `ImageTaskTheorems.dfy`, `ImageTaskRounds.dfy`, `ImageTaskOutcomes.dfy` |
| Image files | `ResultFiles.dfy` | `ResultFiles.dfy` | `ResultFiles.dfy` |
| Video fence | `VideoRelay.dfy` | `VideoRelayStore.dfy` | `VideoFence.dfy`, `VideoQuota.dfy`, `VideoOutcomes.dfy` |
| Canonical JSON | `StableJson.dfy` | (pure) | `StableJsonTheorems.dfy`, `StableJsonText.dfy`, `JsonString.dfy` |
| JSON scanner | `FlatScanner.dfy` | `FlatScanner.dfy` | `FlatScannerTheorems.dfy`, `JsonString.dfy` |

Six promises hold only under a condition, and the condition is proved to be exact:

- A stored text result and its charge agree throughout a run if and only if no stream stores
  its result over a charge that is already closed as unknown. The end of a stream does not
  look at the flag that a cancellation sets, so a cancellation whose mark reaches the ledger
  but not the result store, followed by a normal end of the same read, breaks the agreement
  (`ResultWithoutCharge`). If pending reads end before a cancellation returns, as the Streams
  standard orders them, it cannot happen (`AgreementOfOrderlyRuns`).
- The usage observer finds the frames and the leftover of the whole text if and only if no cut
  divides a CR LF (`ChunkingExactly`), since each chunk is normalised by itself; a cut in the
  wrong place hides a whole frame (`DividedCrLfHidesUsage`).
- A newcomer displaces a waiter if and only if its token may claim a seat and some waiter of a
  non-empty token is worth displacing and outranks every waiter of the empty token
  (`DisplacedExactly`): the code takes the empty token for no donor, so three requests without
  a token fill a small lane and keep it against a rightful claim (`EmptyTokenKeepsSeats`). The
  gateway passes principal ids, which are never empty, and then the claim alone decides
  (`DisplacedWhenNamed`).
- In the fair scheduler a user with room of its own is passed at most as often as others stand
  before it (`FairOvertaking.BoundedOvertaking`). In the MiMo scheduler it is not: a grant of the
  other lane to a user behind it puts those further behind in front of it, and a run repeats that
  without end (`Starvation`). A place is lost if and only if a grant goes to a user
  behind that has somebody behind it in turn (`TurnedBackExactly`), nothing else moves a user back,
  and the grants of its lane to others are at most its place plus the places so lost
  (`MimoOvertaking.BoundedOvertaking`), so the bound by the place holds while there are none.
- A cancelled image task stays cancelled until it is swept if and only if, at the cancellation,
  its runner was not between its last look at the status and `markRunning`
  (`CancelledForGoodExactly`); otherwise the runner overwrites the status (`CancelledMayRun`).
  Either way the task never reaches the provider (`CancelledNeverCalls`), given that the rate
  gate refuses an aborted signal.
- A string of JSON text is read as what it stands for if and only if it writes no half of a
  surrogate pair by an escape (`UnescapeExactly`): section 7 of RFC 8259 allows such pairs, and
  the native helpers refuse them (`PairIsRefused`).

## Model

| member | source | states |
|---|---|---|
| Counters.Inc | gateway/modelCapacity.ts:651-653 | Granting raises the count of exactly one name by one; a missing entry reads as zero. |
| Counters.Dec | gateway/modelCapacity.ts:659-665 | Releasing lowers the count of exactly one name by one and never below zero. |
| Permits.GrantKeepsCounted | gateway/modelCapacity.ts:650-654 | After a grant the totals of the pool, of every user and of every token still equal the numbers of outstanding permits. |
| Permits.FreeKeepsCounted | gateway/modelCapacity.ts:656-665 | After a release the totals still equal the numbers of outstanding permits, and only the holder's user and token lose one. |
| WaitingLine.EnqueueKeepsLine | gateway/modelCapacity.ts:577-583 | Queueing a request keeps `waitingUsers` the duplicate-free list of exactly the users with a non-empty queue. |
| WaitingLine.ServeAtKeepsLine | gateway/modelCapacity.ts:675-690 | Serving any request of any user keeps that shape; a user with work left goes last. |
| WaitingLine.RemoveKeepsLine | gateway/modelCapacity.ts:700-712 | Taking a waiter out keeps that shape, whether or not its queue becomes empty. |
| FairScheduler.First | gateway/modelCapacity.ts:675-694 | The next grant goes to the first user in line whose head can start; nobody before it could. |
| FairScheduling.FairCapacityScheduler.constructor | gateway/modelCapacity.ts:504-534 | A new scheduler is idle and satisfies the invariant. |
| FairScheduling.FairCapacityScheduler.Acquire | gateway/modelCapacity.ts:536-573 | One call does the acquire step of the specification: cancellation, inflight cap, immediate grant, impatience, full queue, wait. |
| FairScheduling.FairCapacityScheduler.Wait | gateway/modelCapacity.ts:557-599 | The full-queue path and the queueing path together do the wait step. |
| FairScheduling.FairCapacityScheduler.Release | gateway/modelCapacity.ts:656-667 | Releasing frees the permit and drains; releasing again does nothing. |
| FairScheduling.FairCapacityScheduler.RemoveAndReject | gateway/modelCapacity.ts:585-597 | A timeout or abort rejects the waiter if it still waits, then drains. |
| FairScheduling.FairCapacityScheduler.RemovePending | gateway/modelCapacity.ts:700-712 | Takes the named waiter out of its queue, and its user out of line if nothing is left; false if it no longer waits. |
| FairScheduling.FairCapacityScheduler.QueuedCount | gateway/modelCapacity.ts:619-623 | The loop over all queues computes the total number of waiters. |
| FairScheduling.FairCapacityScheduler.HasRunnablePending | gateway/modelCapacity.ts:642-648 | True exactly when some head of a queue can start. |
| FairScheduling.FairCapacityScheduler.ScanOnce | gateway/modelCapacity.ts:673-695 | One pass of the inner loop serves the first user whose head can start and otherwise leaves the line exactly as it was. |
| FairScheduling.FairCapacityScheduler.DrainQueue | gateway/modelCapacity.ts:671-698 | The nested loop terminates and grants heads in line order until no head can start. |
| FairTheorems.DrainQuiesces | gateway/modelCapacity.ts:671-698 | After a drain no head of a queue can start. |
| FairTheorems.StepKeeps | gateway/modelCapacity.ts:536-712 | Every event keeps all counters true, every limit, the shape of the line and the books, and leaves no runnable head waiting. |
| FairTheorems.ReachableStates | gateway/modelCapacity.ts:536-712 | The same after every event of every run: work conservation and counters equal to outstanding permits within every limit. |
| FairTheorems.NoOvertakingOnArrival | gateway/modelCapacity.ts:549-572 | The drain on the queue-full path changes nothing, and no immediate grant passes a waiter that could start. |
| FairTheorems.SettledForGood | gateway/modelCapacity.ts:575-598 | A promise, once settled, is settled alike for the rest of the run. |
| FairTheorems.DoubleRelease | gateway/modelCapacity.ts:654-667 | A permit once released stays released and releasing it again changes nothing, whatever happened in between. |
| FairService.NoSlotHeldBack | gateway/modelCapacity.ts:632-698 | In every reachable state with fewer permits out than slots, the head of every waiting user is at its user's or its token's limit, counted in permits. |
| FairService.AcquireExactly | gateway/modelCapacity.ts:536-599 | When a request is granted, refused with which status, or made to wait, and what that leaves of permits, promises and line: told by held permits and queue lengths alone. A willing request is also granted past a blocked line when none of its own user waits or the queue is full. |
| FairService.DrainServes | gateway/modelCapacity.ts:671-698 | A drain grants waiters in the order of their queues to their own user and token, and loses, settles and admits nothing else. |
| FairService.ReleaseExactly | gateway/modelCapacity.ts:656-667 | A release gives back exactly its permit and then only serves. |
| FairService.LeaveExactly | gateway/modelCapacity.ts:585-597 | A timeout or abort refuses exactly its request, with its status, and then only serves. |
| FairOvertaking.RunIsMicros | gateway/modelCapacity.ts:536-712 | Every run of events is a sequence of the single grants, arrivals, departures and releases that overtaking is counted over. |
| FairOvertaking.ServeMovesForward | gateway/modelCapacity.ts:675-694 | A grant from the queue to another user moves a user that has room strictly forward. |
| FairOvertaking.OthersNeverPush | gateway/modelCapacity.ts:575-598 | Arrivals, replies, timeouts, releases and scans without a grant never move a waiting user back. |
| FairOvertaking.BoundedOvertaking | gateway/modelCapacity.ts:671-698 | A user at place p whose own limits leave room throughout sees at most p grants from the queue to others before its own. |
| MimoScheduler.FirstEntry | gateway/modelCapacity.ts:437-441 | The request served of a user is the first of its queue that can start. |
| MimoScheduler.LastOf | gateway/modelCapacity.ts:380-387 | The seat given up is the newest of that token in its queue. |
| MimoScheduling.MimoReservationScheduler.constructor | gateway/modelCapacity.ts:190-211 | Under the validated configuration a new scheduler is idle and satisfies the invariant. |
| MimoScheduling.MimoReservationScheduler.Acquire | gateway/modelCapacity.ts:221-232 | One call does the acquire step: cancellation, both inflight caps, immediate grant, impatience, wait. |
| MimoScheduling.MimoReservationScheduler.Wait | gateway/modelCapacity.ts:234-274 | A full lane is drained first, then grants, displaces, rejects or queues as the specification does. |
| MimoScheduling.MimoReservationScheduler.Release | gateway/modelCapacity.ts:404-422 | Releasing frees the permit in all counters and drains; releasing again does nothing. |
| MimoScheduling.MimoReservationScheduler.RemoveAndReject | gateway/modelCapacity.ts:261-272 | A timeout or abort rejects the waiter if it still waits, then drains. |
| MimoScheduling.MimoReservationScheduler.HasRunnablePending | gateway/modelCapacity.ts:334-340 | True exactly when some waiter of any user and lane can start. |
| MimoScheduling.MimoReservationScheduler.MakeRoomForFreshRunnableToken | gateway/modelCapacity.ts:349-395 | Rejects exactly the waiter that the specification displaces, or changes nothing. |
| MimoScheduling.MimoReservationScheduler.CountWaitingTokens | gateway/modelCapacity.ts:352-358 | The nested loops count the waiters of the lane per token, in order of first sight. |
| MimoScheduling.MimoReservationScheduler.ChooseDonor | gateway/modelCapacity.ts:363-377 | The loop picks the first token with the strictly highest positive score. |
| MimoScheduling.MimoReservationScheduler.NewestSeat | gateway/modelCapacity.ts:379-390 | The loops find the newest waiter of the donor in the first queue that has one. |
| MimoScheduling.MimoReservationScheduler.RemovePending | gateway/modelCapacity.ts:456-469 | Takes one waiter out of queue, line and lane count and rejects it. |
| MimoScheduling.MimoReservationScheduler.ScanOnce | gateway/modelCapacity.ts:427-451 | One pass serves the first runnable request of the first user that has one and otherwise leaves the line exactly as it was. |
| MimoScheduling.MimoReservationScheduler.DrainQueue | gateway/modelCapacity.ts:426-454 | The nested loop terminates and serves until no waiter can start. |
| MimoTheorems.LaneReservation | gateway/modelCapacity.ts:208-332 | In every state of the invariant a request whose lane has a free slot and whose user and token have room can start, whatever the other lane's load; the account-wide test never blocks it. |
| MimoTheorems.DrainQuiesces | gateway/modelCapacity.ts:426-454 | After a drain no waiter of either lane can start. |
| MimoTheorems.StepKeeps | gateway/modelCapacity.ts:221-469 | Every event keeps all totals per pool, lane, user and token true, every limit and queue bound, the shape of the line and the books, and leaves no runnable waiter. |
| MimoTheorems.ReachableStates | gateway/modelCapacity.ts:221-469 | The same after every event of every run. |
| MimoTheorems.NoOvertakingOnArrival | gateway/modelCapacity.ts:228-238 | The drain on the queue-full path changes nothing, and no immediate grant passes a waiter that could start. |
| MimoTheorems.SettledForGood | gateway/modelCapacity.ts:247-274 | A promise, once settled, is settled alike for the rest of the run, displaced waiters included. |
| MimoTheorems.DoubleRelease | gateway/modelCapacity.ts:403-422 | Releasing a permit again changes nothing, whatever happened in between. |
| MimoService.NoSlotHeldBack | gateway/modelCapacity.ts:322-332 | While a lane has fewer permits out than reserved slots, whoever waits for it is at its user's, its vision's or its token's limit, whatever the other lane does. |
| MimoService.AcquireExactly | gateway/modelCapacity.ts:221-274 | When a request is granted, refused, made to wait or made to contest a seat, told by held permits and queue lengths; a grant out of the queue of a waiting user turns the line, any other leaves it. |
| MimoService.DrainServes | gateway/modelCapacity.ts:426-454 | A drain grants waiters to their own user, token and lane; the others wait on in their order, and nothing else is lost, settled or admitted. |
| MimoService.ReleaseExactly | gateway/modelCapacity.ts:404-422 | A release gives back exactly its permit and then only serves. |
| MimoService.LeaveExactly | gateway/modelCapacity.ts:261-272 | A timeout or abort refuses exactly its request, with its status, and then only serves. |
| MimoDisplacement.DisplacedExactly | gateway/modelCapacity.ts:349-378 | A seat is taken if and only if the newcomer's token is below its cap and has nothing queued in the lane, and some waiter of a non-empty token is worth displacing and outranks the empty token, by its score or by being met first. |
| MimoDisplacement.DisplacedWhenNamed | gateway/modelCapacity.ts:349-378 | Where no waiter has the empty token, a seat is taken if and only if the claim holds: below the cap, nothing queued, and a waiter worth displacing. |
| MimoDisplacement.EmptyTokenKeepsSeats | gateway/modelCapacity.ts:376 | A run in which three requests without a token fill the lane of a scheduler with a valid configuration, after which a named newcomer may claim a seat and is answered 429. |
| MimoDisplacement.DonorIsFair | gateway/modelCapacity.ts:363-390 | The loser waits in the same lane under another, non-empty token that holds two seats there or is at its cap, no waiter of the lane outranks it by score or by being met first, and it is the newest of its token in its queue. |
| MimoDisplacement.DisplacementContract | gateway/modelCapacity.ts:234-258 | In every reachable state a newcomer at a full lane is turned away, or exactly one waiter is rejected for it: no counter, permit, lane total or other queue changes. |
| MimoOvertaking.RunIsMicros | gateway/modelCapacity.ts:221-469 | Every run of events is a sequence of the single grants, arrivals, departures and releases that overtaking is counted over. |
| MimoOvertaking.TurnedBackExactly | gateway/modelCapacity.ts:426-451 | A grant to another user moves a waiting user back if and only if that user stands behind it and has somebody behind it in turn; it loses as many places as follow. |
| MimoOvertaking.OthersNeverPush | gateway/modelCapacity.ts:247-274 | Arrivals, replies, timeouts, displacements, releases and scans without a grant never move a waiting user back. |
| MimoOvertaking.BoundedOvertaking | gateway/modelCapacity.ts:426-451 | While a user waits with room of its own in a lane, the grants of that lane to others are at most its place in line plus the places lost to grants behind it. |
| MimoStarvation.Starvation | gateway/modelCapacity.ts:426-451 | For every n a concrete run in which a request that is first in line, with room of its own, still waits after 2n later requests, half of them of its own lane, were granted. |
| UsageLedger.Find | gateway/usageBudget.ts:341-344 | The row that a token names must belong to that operation; otherwise there is none. |
| UsageService.UsageBudgetService.ReserveUsage | gateway/usageBudget.ts:290-326 | One call does the reserve transaction: input checks, duplicate or conflict, both limits, insertion with a fresh token. |
| UsageService.UsageBudgetService.AssertWithinBudget | gateway/usageBudget.ts:345-370 | Refuses exactly when an axis of either limit would be exceeded; the principal's limit wins the explanation. |
| UsageService.UsageBudgetService.SumUsage | gateway/usageBudget.ts:347-356 | The loop sums what counted rows of the day and capability cost the principal and the installation. |
| UsageService.UsageBudgetService.FinalizeUsage | gateway/usageBudget.ts:387-403 | One call gives the named row its outcome, or answers with the outcome it has, or refuses. |
| UsageBounds.SpentSplits | gateway/usageBudget.ts:351-356 | Counted usage is what was planned plus what settled rows cost beyond their reservations. |
| UsageBounds.LedgerBound | gateway/usageBudget.ts:345-403 | After every run under one policy, for every principal, installation, capability, day and axis, counted usage is at most the limit (or what the opened ledger had planned) plus the overrun of settled rows. |
| UsageBounds.LedgerBoundFromEmpty | gateway/usageBudget.ts:345-403 | From an empty ledger the bound is the limit plus the overrun. |
| UsageBounds.RunKeepsFenced | gateway/usageBudget.ts:310-318 | Fencing tokens are positive and name one row in every reachable ledger. |
| UsageBounds.RowsEvolve | gateway/usageBudget.ts:371-403 | Rows are permanent, keep their reservation, and exactly one terminal outcome is ever applied to a row. |
| UsageBounds.ReserveExactly | gateway/usageBudget.ts:345-370 | A fresh operation is reserved exactly when its amount fits on all four axes of both limits. |
| UsageBounds.FinalizeAnswers | gateway/usageBudget.ts:341-344 | A token of another operation is refused, the right one finds its row, and no other row changes. |
| UsageBounds.ReserveAgain | gateway/usageBudget.ts:292-306 | Reserving again with the same binding finds the same row for good; any other binding is a conflict; neither changes anything. |
| UsageOutcomes.ReserveCharges | gateway/usageBudget.ts:290-326 | A new reservation raises counted usage by exactly the amount asked for, on every axis, against the limits of its principal and installation on that day and no others; any other answer changes nothing. |
| UsageOutcomes.ReserveRefuses | gateway/usageBudget.ts:94-104 | Malformed requests and unbound accounts are conflicts, invalid amounts are unavailable, before the ledger is looked at. |
| UsageOutcomes.FinalizeExactly | gateway/usageBudget.ts:371-403 | A first outcome replaces what a row reserved by exactly what it cost (its actual amount, nothing, or the reservation), against exactly the limits of that row; an invalid or second one changes nothing. |
| UsageOutcomes.NeverBothReserved | gateway/usageBudget.ts:345-370 | Two operations whose amounts together exceed a limit are never both reserved or unknown on one day. |
| ResultStoring.OperationResultStore.constructor | gateway/operationResultStore.ts:180-184 | After opening, nothing is reserved: every later lookup that would have found an operation in progress finds it unknown, and every other lookup answers as before. |
| ResultStoring.OperationResultStore.EndReservations | gateway/operationResultStore.ts:184 | The update over all rows turns the reserved ones, and only them, into unknown outcomes that never expire into a new start. |
| ResultStoring.OperationResultStore.BeginOperation | gateway/operationResultStore.ts:187-237 | One call does the begin transaction: binding, expiry of cache and lease, replay, backlog, reservation. |
| ResultStoring.OperationResultStore.Lookup | gateway/operationResultStore.ts:239-271 | The read-only lookup answers as specified and changes nothing. |
| ResultStoring.OperationResultStore.CompleteOperation | gateway/operationResultStore.ts:273-300 | Stores the payload of the fenced reservation, for a durable consumer or with a retention time and pruning. |
| ResultStoring.OperationResultStore.ReleaseOperation | gateway/operationResultStore.ts:357-364 | Deletes the fenced reservation and nothing else. |
| ResultStoring.OperationResultStore.MarkUnknown | gateway/operationResultStore.ts:366-374 | Marks the fenced reservation unknown; idempotent, and refused for a stored result. |
| ResultStoring.OperationResultStore.AcknowledgeResult | gateway/operationResultStore.ts:302-334 | Starts the retention time of a stored result once and prunes. |
| ResultStoring.OperationResultStore.PruneSucceeded | gateway/operationResultStore.ts:398-411 | Deletes the expired cached results and the oldest of this owner and capability beyond the bound, and nothing else. |
| ResultStoring.OperationResultStore.StaleKeys | gateway/operationResultStore.ts:400-409 | What is dropped beyond the bound is as old as anything kept, and just enough. |
| ResultStoring.OperationResultStore.CountBacklog | gateway/operationResultStore.ts:423-429 | Counts and sizes the stored results that no consumer has confirmed. |
| ResultStore.LookupForetellsBegin | gateway/operationResultStore.ts:187-271 | A lookup answers what begin would answer; it finds nothing exactly when begin would start the operation or find no room. |
| ResultStore.StepKeepsRow | gateway/operationResultStore.ts:187-411 | No call changes an unknown outcome, the payload of a stored result, or an unconfirmed result that its consumer does not confirm. |
| ResultStore.UnknownForGood | gateway/operationResultStore.ts:208-211 | An unknown outcome stays unknown over all runs, leases and restarts. |
| ResultStore.UnconfirmedForGood | gateway/operationResultStore.ts:284-296 | An unconfirmed result outlives every other call, pruning and restart. |
| ResultStore.StoredResultIsReplayed | gateway/operationResultStore.ts:273-300 | A completed result is replayed with the same payload at any later time until its consumer confirms it. |
| ResultStore.RestartEndsProgress | gateway/operationResultStore.ts:180-184 | After a restart what was in progress is unknown and nothing else has changed for a reader. |
| ResultOutcomes.StartedInProgress | gateway/operationResultStore.ts:187-237 | An operation that starts is in progress for the thirty minutes of its lease and unknown from then on, for any reader. |
| ResultOutcomes.NotStartedChangesNothing | gateway/operationResultStore.ts:187-237 | A begin that starts nothing changes no later answer to anybody. |
| ResultOutcomes.LookupExactly | gateway/operationResultStore.ts:239-271 | Who is answered a conflict, who finds nothing, and that a replay is the stored text. |
| ResultOutcomes.BacklogExactly | gateway/operationResultStore.ts:413-429 | No room exactly if the unconfirmed results of the installation are 100 000 or 512 MiB, or all together 250 000 or 2 GiB. |
| ResultOutcomes.EndsExactly | gateway/operationResultStore.ts:273-374 | Who does not hold the token ends nothing; what each of complete, release and mark may do in each state of the row. |
| ResultOutcomes.PayloadRefused | gateway/operationResultStore.ts:122-130 | A text that is too short, too long or no object is refused before anything else. |
| ResultOutcomes.EndedForReaders | gateway/operationResultStore.ts:357-374 | What is released may be started again, what is marked is unknown, for any reader. |
| ResultOutcomes.CachedForThirtyDays | gateway/operationResultStore.ts:273-300 | A result without a durable consumer is answered for thirty days unless dropped for newer ones, and then not found. |
| ResultOutcomes.AckExactly | gateway/operationResultStore.ts:302-334 | A confirmation starts the thirty days of a stored result, the first time only; rows without a result are answered as they are. |
| ResultOutcomes.CacheBounded | gateway/operationResultStore.ts:398-411 | Pruning leaves at most the bound of this owner and capability and nothing past its time, and drops only confirmed results, the oldest beyond the bound. |
| ResultOutcomes.NoneDroppedEarly | gateway/operationResultStore.ts:398-411 | Within the bound nothing is dropped before its time. |
| ManagedTextInvariant.ChargeIs | gateway/app.ts:1323-1331 | A charge finalizes the ledger row of its own request and no other, and throws exactly when the ledger refuses. |
| ManagedTextInvariant.AdmitKeeps | gateway/app.ts:1942-1977 | A dispatch needs a started operation and a new ledger row, and then there was no dispatch before. |
| ManagedTextInvariant.RespondKeeps | gateway/app.ts:1988-2013 | The failure paths of the provider's answer keep the protocol invariant, settle nothing and touch no stored result. |
| ManagedTextInvariant.InterruptKeeps | gateway/app.ts:1421-1426 | Marking a stream unknown, after a cancellation or an error, keeps the invariant and the agreement. |
| ManagedTextInvariant.StoreKeeps | gateway/app.ts:1437-1449 | After the end of a stream stored its result, result and charge agree exactly when the charge was still open. |
| ManagedTextInvariant.ReplaySettles | gateway/app.ts:1386-1398 | Settling for a stored result that agrees with its charge ends at the stored amount. |
| ManagedTextInvariant.ArriveKeeps | gateway/app.ts:1942-1984 | An arriving request keeps the invariant; only a replay may settle, and only at the stored amount. |
| ManagedTextInvariant.StepKeeps | gateway/app.ts:1386-1465 | Every event keeps the invariant, settles only through a store or a replay, and leaves unconfirmed results alone. |
| ManagedTextTheorems.AtMostOneDispatch | gateway/app.ts:1942-1989 | The provider is asked at most once per operation of a principal over all interleavings, store failures, expired results and restarts. |
| ManagedTextTheorems.AgreementExactly | gateway/app.ts:1415-1460 | Stored result and charge agree throughout a run if and only if no result is stored over a charge already closed as unknown. |
| ManagedTextTheorems.AgreementOfOrderlyRuns | gateway/app.ts:1421-1460 | They agree in every run in which no stream ends after it was cancelled. |
| ManagedTextTheorems.ReplayIsSettled | gateway/app.ts:1386-1403 | A request answered with a stored text leaves its ledger row settled at the stored amount. |
| ManagedTextTheorems.SettledAfterStored | gateway/app.ts:1442-1449 | A settled ledger row has a result that was stored before or with it and records the same amount. |
| ManagedTextTheorems.StoredUntilConfirmed | gateway/operationResultStore.ts:288-296 | A stored result keeps its payload through all requests, failures and restarts until its consumer confirms it. |
| ManagedTextTheorems.ResultWithoutCharge | gateway/app.ts:1428-1460 | The concrete run that stores a result whose charge stays unknown. |
| ManagedTextOutcomes.FailureExactly | gateway/app.ts:1990-2009 | From every reachable state: a failed answer, an exception or a missing body with status 499 or from 500 on leaves the ledger row unknown and counting its reservation, and the operation answered as unknown; any other failure releases the row to count nothing and drops the operation; with every combination of failing store calls. |
| ManagedTextOutcomes.InterruptExactly | gateway/app.ts:1412-1455 | A cancelled or failed stream becomes unknown, once, in the row and in the operation, unless its result was stored before. |
| ManagedTextOutcomes.FinishExactly | gateway/app.ts:1428-1447 | The end of a stream stores and answers its text if the operation is still reserved for it and the text fits, and then settles an open charge at its amount; otherwise the outcome is unknown. |
| ManagedTextOutcomes.ArriveExactly | gateway/app.ts:1942-1984 | The provider is asked exactly for an operation that the store starts and the ledger claims, for the first time; one that only starts is dropped again; a stored text is paid for at its amount; any other request does nothing. |
| UsageObserving.Boundary | gateway/app.ts:969-972 | The next frame ends at the first empty line of the buffer. |
| UsageObserving.UsageObserver.Push | gateway/app.ts:967-980 | A push reads all complete frames of buffer and chunk and keeps the rest. |
| UsageObserving.UsageObserver.ReadFrame | gateway/app.ts:973-978 | The loop over lines observes the data lines of a frame in order. |
| UsageObserving.UsageObserver.ObserveUsage | gateway/app.ts:950-964 | Which fields of a report count, and when a total is computed or left alone. |
| UsageObserving.FramesResume | gateway/app.ts:967-972 | Reading on from the leftover of a prefix finds exactly the frames of the whole. |
| UsageObserving.TextIsFramesAndTail | gateway/app.ts:969-972 | The leftover is the unterminated tail: frames, each closed by its first empty line, and tail give back the text. |
| UsageObserving.SeenExactly | gateway/app.ts:968 | The text seen is the normalised stream if and only if no cut divides a CR LF. |
| UsageObserving.ChunkingIndependence | gateway/app.ts:967-980 | However the stream is cut, if no cut divides a CR LF, usage and leftover are those of one push of the whole. |
| UsageObserving.ChunkingExactly | gateway/app.ts:967-980 | Frames and leftover are those of one push of the whole text if and only if no cut divides a CR LF. |
| UsageObserving.ChunkingIndependenceWithoutCr | gateway/app.ts:967-980 | A stream without CR may be cut anywhere. |
| UsageObserving.DividedCrLfHidesUsage | gateway/app.ts:968 | A cut inside the second CR LF of an empty line hides the frame before it. |
| UsageObserving.UsageObserver.ActualUsage | gateway/app.ts:981-996 | An axis that was not reported, or a total below the output, costs what was reserved. |
| StreamText.StreamIsRead | gateway/app.ts:966-980 | What is read of a stream of whole events is the data of its data lines, in order, whether lines end with LF or CR LF and whatever white space stands beside the data; end marks and other fields are skipped. |
| StreamCharge.ChargedForItsText | gateway/app.ts:1434-1441 | The charge of a stream depends on its text alone, not on the chunks it came in, if no cut divides a CR LF. |
| StreamCharge.ChargeIsValid | gateway/app.ts:981-996 | The charge is a valid amount whenever the reservation is, so the ledger accepts it. |
| StreamCharge.SilentStreamCostsReservation | gateway/app.ts:988-993 | A stream without a usage report costs what was reserved for it. |
| StreamCharge.ChargeExactly | gateway/app.ts:950-996 | By field names: the last report with a completion count (or, if that is missing, output_tokens) gives the output; the last with a total, or with prompt and completion counts whose sum is safe, gives the total; an axis that none gives, or a total below the output, costs the reservation. |
| StreamCharge.SettledForItsText | gateway/app.ts:1432-1447 | A stream that ends while its charge is open leaves its ledger row settled at exactly what its text reports. |
| RelayTasks.FindByIdempotency | relay/app.ts:817-821 | The task of an owner and key, if there is one. |
| RelayStoring.TaskStore.constructor | relay/app.ts:627-667 | After opening, nothing is running; every task that was running has failed with an unknown outcome and has a charge that is not merely reserved; owners and keys stay unique. |
| RelayStoring.TaskStore.BackfillLegacyTerminalQuota | relay/app.ts:633-667 | The loop over tasks charges exactly the finished work of this day that no row accounts for, and changes no row. |
| RelayStoring.TaskStore.ChargeLegacy | relay/app.ts:642-665 | A task of unknown provider is charged to both accounts; a row that exists is kept. |
| RelayStoring.TaskStore.RecoverRunning | relay/app.ts:996-1014 | The loops give every running task a row, make it fail as unknown and hold its charge as unknown; without running tasks nothing changes. |
| RelayStoring.TaskStore.CreateWithReservation | relay/app.ts:751-796 | One transaction: idempotency, queue bounds, both quotas, task and reservation together. |
| RelayStoring.TaskStore.EnsureQueuedReservation | relay/app.ts:723-745 | A queued task without a row reserves under the limits; a changed account is refused. |
| RelayStoring.TaskStore.SumQuota | relay/app.ts:681-695 | The sum of reserved, unknown and settled amounts of an owner's or an account's day. |
| RelayStoring.TaskStore.RemoveAndReleaseTask | relay/app.ts:804-811 | Deletes the task and releases a reservation that is still reserved. |
| RelayStoring.TaskStore.AppendProviderReceipt | relay/app.ts:823-836 | Chains the receipt and holds the reservation as unknown. |
| RelayStoring.TaskStore.MarkTaskRunning | relay/app.ts:848-850 | Overwrites the status whatever it was, and nothing else but the time. |
| RelayStoring.TaskStore.RetryPreProviderAdmission | relay/app.ts:856-875 | Requeues a task without a receipt at most three times, then fails and releases it. |
| RelayStoring.TaskStore.MarkTaskSucceeded | relay/app.ts:877-886 | Settles a complete result and holds a partial one as unknown. |
| RelayStoring.TaskStore.RecoverSucceededManifestResult | relay/app.ts:891-902 | Restores an interrupted task with a receipt that was not acknowledged, its charge unknown. |
| RelayStoring.TaskStore.MarkKnownFailedAndRelease | relay/app.ts:904-911 | Fails the task and releases a reservation that is still reserved. |
| RelayStoring.TaskStore.MarkTaskOutcomeUnknown | relay/app.ts:913-920 | Marks the task and its charge unknown. |
| RelayStoring.TaskStore.CancelQueuedAndRelease | relay/app.ts:922-932 | Cancels a queued task only, and releases its reservation. |
| RelayStoring.TaskStore.AcknowledgeResult | relay/app.ts:838-846 | Records the first acknowledgement time and returns it ever after. |
| RelayStoring.TaskStore.SweepTables | relay/app.ts:964-990 | Reports exactly the tasks it drops; work in progress, unconfirmed results within their own retention time, recent rows and reserved charges are never among them. |
| RelayQuota.SpentSplits | relay/app.ts:681-695 | What counts is guarded spending plus legacy spending. |
| RelayQuota.HardQuota | relay/app.ts:681-796 | After every run under one policy, for every owner and day and every provider account and day, what counts is at most the limit plus what the unguarded legacy paths inserted (or what the opened ledger held). |
| RelayQuota.HardQuotaFromEmpty | relay/app.ts:681-796 | From an empty ledger the bound is the limit plus the legacy amounts. |
| RelayQuota.ReleasedForGood | relay/app.ts:802-932 | While its row is kept, a released amount never counts again. |
| RelayQuota.RunKeepsUniqueKeys | relay/app.ts:572-573 | One task at most for a key of an owner, in every reachable store. |
| RelayQuota.SubmitAgain | relay/app.ts:763-768 | A repeated submission reuses its task, or conflicts if its input differs, and reserves nothing. |
| RelayOutcomes.CreateExactly | relay/app.ts:751-796 | A submission under a new key is created exactly if there is a place in both queues and room on both days; then the day of its owner and of its account, and no other, count exactly the quoted amount more. |
| RelayOutcomes.EnsureExactly | relay/app.ts:723-745 | A queued task without a row is charged in the same way, exactly if both days have room. |
| RelayOutcomes.RemoveExactly | relay/app.ts:804-836 | A removed task gives back what was still reserved, a receipt holds the charge as unknown. |
| RelayOutcomes.RetryExactly | relay/app.ts:856-875 | Three retries without a receipt, then a failure that gives the charge back; nothing once there is a receipt. |
| RelayOutcomes.SucceedExactly | relay/app.ts:877-902 | A complete result settles, an incomplete or restored one holds the charge as unknown; no total changes. |
| RelayOutcomes.FailExactly | relay/app.ts:904-934 | A known failure and a cancellation lower every total by exactly what was still reserved, an unknown outcome lowers none. |
| RelayOutcomes.OpenExactly | relay/app.ts:627-1014 | Opening adds exactly the missing charges, each at its provider's legacy price to its owner and day, and changes no other row but the state of unknown outcomes, and no task but the running ones. |
| RelayOutcomes.SweepExactly | relay/app.ts:964-992 | Exactly which tasks and rows a sweep drops. |
| RelayOutcomes.ChargeForGood | relay/app.ts:697-719 | While it is kept, a row charges the same amount to the same owner, account and day, over all runs. |
| RelayOutcomes.NeverBothCharged | relay/app.ts:751-796 | Over whole runs, two submissions of one day whose quotes together exceed the owner's or the account's limit are never both charged. |
| ImageResults.RunSeedream | relay/app.ts:1584-1674 | Up to the first answer that ends the loop, calls go out in index order and once each; it throws exactly if no image came before that; else it returns exactly the images brought, valid and invalid indices partition 0..n-1, and the outcome is partial exactly if the loop ended early or some answer was not one image; an index without an image is noted with why: its record missing or bad, the call rejected, its outcome unknown, or not attempted. |
| ImageResults.NotAttemptedFrom | relay/app.ts:1640-1645 | After an early exit every remaining index is noted, by that code, as not attempted. |
| ImageResults.ReadOpenAI | relay/app.ts:1799-1828 | The one answer of OpenAI: valid indices are exactly those whose record holds an image, valid and invalid partition 0..n-1, and the outcome is partial exactly if the number of records differs or one holds no image; each invalid index is noted as missing or by what is wrong with its record. |
| ImageResults.ProjectStored | relay/app.ts:1864-1890 | After a restart the indices delivered are exactly those for which a stored output passes, and the others are noted as unknown after recovery; together they are all n. |
| ImageTaskTheorems.CatchKeeps | relay/app.ts:1829-1849 | The catch block, even if its own write fails, retries only what was never called, holds what has a receipt and releases only what is known unspent. |
| ImageTaskTheorems.StepKeeps | relay/app.ts:1688-1860 | Every durable write of the runner, every failure, request, crash and restart keeps runner, row, charge, calls and stored outputs in step. |
| ImageTaskTheorems.NeverPaidTwice | relay/app.ts:1584-1860 | Over all runs: at most one generation call per requested index, in order, and to OpenAI one in all; at most three requeues; what is stored are requested images, each once and in order; a released reservation never belongs to a task with a receipt. |
| ImageTaskTheorems.CancelledNeverCalls | relay/app.ts:2208-2230 | A cancelled task never reaches the provider, whatever happens afterwards. |
| ImageTaskTheorems.CancelledMayRun | relay/app.ts:848-850 | A concrete run: submitted, admitted, cancelled, and then marked as running. |
| ImageTaskTheorems.CancelledForGoodExactly | relay/app.ts:1731-1732 | After a cancellation in any reachable state the task stays cancelled or swept over all continuations if and only if its runner was not waiting between its last check and `markRunning`. |
| ImageTaskTheorems.EmptyStoreAccepts | relay/app.ts:751-796 | An empty store accepts a first task within the limits, so the concrete runs do happen. |
| ImageTaskTheorems.InterruptedTask | relay/app.ts:996-1014 | In every run, wherever a running task is hit by a crash: it is delivered if and only if its input, a receipt and committed outputs with a valid candidate are there and it was not confirmed, else its outcome is unknown; its charge is kept as unknown unless a cancellation had released it; no call is ever sent for it again. |
| ImageTaskTheorems.RecoveryHasOneChance | relay/app.ts:1864-1898 | If the write of the recovery fails, or the process dies again before it, the task stays unknown over all continuations until it is swept, whatever is stored for it. |
| ImageTaskTheorems.DeliveredAfterCrash | relay/app.ts:888-902 | The run for which recovery exists: outputs are committed, the process dies before the task is marked, and the restart delivers them with an unknown charge. |
| ImageTaskOutcomes.WholeTask | relay/app.ts:1584-1860 | A Seedream task that nothing disturbs sends the calls of its loop, delivers exactly the images that they brought, and is settled if all came and held as unknown if not. |
| ImageTaskOutcomes.ImagesExactly | relay/app.ts:1620-1666 | Which call ends the loop, which answers bring an image, and when nothing is missing, told by the records themselves. |
| ImageTaskOutcomes.ImagesOfExactly | relay/app.ts:1790-1818 | Which places of OpenAI's answer bring an image, and when it is complete. |
| ImageTaskOutcomes.SubmitExactly | relay/app.ts:2100-2150 | What a submission leaves if its input is stored, is not, or the process dies in between. |
| ImageTaskOutcomes.LaunchExactly | relay/app.ts:1899-1909 | A queued task is started, or fails and gives its charge back if its input is gone. |
| ImageTaskOutcomes.AdmitExactly | relay/app.ts:1709-1732 | With its permit a runner goes on exactly if the task is queued, its input there and its charge made. |
| ImageTaskOutcomes.ReadExactly | relay/app.ts:1626-1666 | What an answer is made of: the next call, a delivery or a failure. |
| ImageTaskOutcomes.ThrowExactly | relay/app.ts:1660-1670 | Where a failure leads from each place: images that earlier calls brought are delivered as incomplete. |
| ImageTaskOutcomes.CatchExactly | relay/app.ts:1829-1849 | What a failure leaves: queued again with its input up to three times before a receipt, unknown with a receipt or an unknown error, else failed with its charge given back. |
| ImageTaskOutcomes.CommitExactly | relay/app.ts:1746-1756 | At most three images are committed, once; a task is marked with the verdict it was read with. |
| ImageTaskOutcomes.CancelExactly | relay/app.ts:2213-2228 | Only a queued task is cancelled, its charge given back, its runner told and its input dropped unless the process dies. |
| ImageTaskOutcomes.ConfirmExactly | relay/app.ts:2189-2211 | A delivered task with outputs is confirmed, or again, and its outputs go unless the process dies. |
| ImageTaskOutcomes.ProjectExactly | relay/app.ts:1864-1898 | After a restart a task is restored exactly if some stored output within the plan passes; its input goes either way. |
| ImageTaskRounds.LifeFollowsLoop | relay/app.ts:1598-1672 | From its first call on a Seedream task sends exactly the calls of the loop and goes on to deliver exactly the images, with the same verdict, that the loop returns. |
| ImageRecovery.CrashAtCommit | relay/app.ts:438-457 | After a crash at any crash-safe moment of the commit, readers find the stored outputs of the life before or after its commit step. |
| ImageRecovery.CommitOutputs | relay/app.ts:1743-1747 | Writing the output files is the commit step of the life, and every crash inside it falls before or after that step. |
| ImageRecovery.RecoverInterrupted | relay/app.ts:1864-1898 | The restart loop over the output files on disk and the task table does the last step of the life: it restores the task exactly if some output is a valid candidate. |
| ImageTaskTheorems.SettledOnlyComplete | relay/app.ts:877-886 | In every run a charge becomes settled only by marking a task with a receipt whose committed outputs are exactly the requested images, all of them in order. |
| ResultFiles.DiskBlobStore.WriteJsonAtomically | relay/app.ts:429-436 | The four system calls of an atomic write, and the disk after each. |
| ResultFiles.DiskBlobStore.PutOutputs | relay/app.ts:438-457 | Refuses an empty, oversized or committed set; otherwise commits the list in order, and after every system call, crash or not, readers see what they saw before or the complete new list. |
| ResultFiles.EverySyncIsNeeded | relay/app.ts:415-436 | With both syncs a written file is found as written after every crash; without the sync of the file any other contents may be found, without that of the directory nothing. |
| ResultFiles.FirstSyncIsNeeded | relay/app.ts:438-450 | Without the sync between outputs and manifest some crash leaves a manifest whose output is missing. |
| ResultFiles.ReadersAgree | relay/app.ts:466-491 | On every disk, whatever it holds: no output beyond the count, a list that is returned is the count and the single outputs, and one that is not misses an output. |
| ResultFiles.ManifestDecides | relay/app.ts:397-413 | A manifest with a count from zero to three decides what is there; without one the whole list of old does, and without either there is nothing. |
| ResultFiles.PhaseSees | relay/app.ts:416-457 | In each phase of the write, on any surviving subset of the unsynced changes, the list, its length and the single outputs are all old or all new. |
| ResultFiles.SeesNew | relay/app.ts:466-491 | Count, single outputs and the whole list agree with each other. |
| VideoStoring.RelayStore.PostOperation | video-media-relay/app.ts:1263-1350 | One arrival does the replay, conflict, interruption, quota, uniqueness and creation steps; a taken local command explains a refusal before an exhausted quota does. |
| VideoStoring.RelayStore.ExceededQuota | video-media-relay/app.ts:212-217 | A limit of zero stops all work, that of the account first; then the sums decide, that of the owner first. |
| VideoStoring.RelayStore.SumUnits | video-media-relay/app.ts:374-376 | The sum of what reserved, unknown and settled rows count for on an owner's or an account's day. |
| VideoStoring.RelayStore.ReplayOperation | video-media-relay/app.ts:1265-1302 | What a replayed key finds; an interrupted submission becomes unknown and keeps its charge. |
| VideoStoring.RelayStore.FailUnsubmitted | video-media-relay/app.ts:850-863 | Fails and releases in one transaction exactly if the operation is accepted and unfenced. |
| VideoStoring.RelayStore.CrossFence | video-media-relay/app.ts:1373-1382 | The compare-and-set before the provider call; the loser changes nothing but its own wait. |
| VideoStoring.RelayStore.CancelOperation | video-media-relay/app.ts:1522-1530 | Cancels and releases exactly what was not submitted. |
| VideoStoring.RelayStore.SettleReservation | video-media-relay/app.ts:383-393 | Settling never costs less than the reservation and never revives a released one. |
| VideoStoring.RelayStore.RetainUnknownQuota | video-media-relay/app.ts:394-396 | Only a reserved row becomes unknown. |
| VideoStoring.RelayStore.ReleaseReservation | video-media-relay/app.ts:397-399 | Only a reserved row is released. |
| VideoStoring.RelayStore.SweepOperations | video-media-relay/app.ts:931-985 | The sweep is a run of orphan and interruption steps; it leaves no interrupted submission and no orphan of an earlier process but those changed within the grace time, and those it does leave. |
| VideoFence.StepKeeps | video-media-relay/app.ts:1263-1398 | Every event keeps one operation per local command, a reservation of its own for each, and fences, states and executions in step. |
| VideoFence.ExecutesOnce | video-media-relay/app.ts:1373-1395 | The provider is asked at most once per local operation of an owner over replays, concurrent posts, cancels, sweeps and restarts. |
| VideoFence.ReleasedMeansUnsubmitted | video-media-relay/app.ts:394-399 | A reservation is released if and only if its operation failed or was cancelled before its fence, and then the provider was never asked. |
| VideoFence.ReleasedForGood | video-media-relay/app.ts:934-950 | A released reservation and its operation never change again. |
| VideoOutcomes.ReplayExactly | video-media-relay/app.ts:1265-1302 | In every reachable world a repeated request shows finished and live work and changes nothing, makes an interrupted submission unknown with its charge kept, and goes on only with what never reached the fence. |
| VideoOutcomes.LiveIsLeftAlone | video-media-relay/app.ts:1284-1288 | While the provider is being asked, no request under a key of the operation and no sweep changes anything. |
| VideoOutcomes.OpenExactly | video-media-relay/app.ts:1319-1348 | A new request opens its operation exactly if its objects are ready, its local command is free and both limits hold; then its owner and the account count exactly its units more. |
| VideoOutcomes.FenceExactly | video-media-relay/app.ts:1373-1382 | The winner of the fence asks the provider for the first time, a loser only gives up its wait. |
| VideoOutcomes.ConcludeExactly | video-media-relay/app.ts:383-399 | A settled operation costs what it used but never less than it reserved, any other outcome costs what it cost. |
| VideoOutcomes.FailExactly | video-media-relay/app.ts:850-863 | A failure before the fence gives the reservation back in full, after it nothing. |
| VideoOutcomes.CancelExactly | video-media-relay/app.ts:1522-1530 | A cancellation ends exactly an unsubmitted operation of its owner under an unused key, and gives its reservation back. |
| VideoOutcomes.SweepOrphanExactly | video-media-relay/app.ts:934-950 | The sweep ends exactly the aged orphans of earlier processes and gives their reservations back. |
| VideoOutcomes.SweepInterruptedExactly | video-media-relay/app.ts:957-975 | The sweep makes unknown exactly the fenced submissions that nobody works on, their charge kept. |
| VideoQuota.SpentSplits | video-media-relay/app.ts:370-376 | What counts is what was planned plus what settled operations cost beyond their reservations. |
| VideoQuota.DailyLimit | video-media-relay/app.ts:370-399 | After every run under one policy, for every owner and day and every provider account and day, what counts is at most the limit plus the overrun of settled operations, and no settled operation costs less than it reserved. |
| VideoFence.PostAgain | video-media-relay/app.ts:364-369 | A bound key answers for good: no second operation or reservation, and a conflict for another request. |
| VideoFence.LocalAgain | video-media-relay/app.ts:1335-1348 | A local command once taken stays taken over all runs: under another key it is a conflict, whatever became of its operation and whatever the quota says, and changes nothing. |
| StableJsonTheorems.QuoteParted | video-media-relay/contracts/relayApi.ts:81-85 | A quoted string can be told apart from whatever follows it. |
| StableJsonTheorems.StableParted | video-media-relay/contracts/relayApi.ts:81-85 | So can the text of every value from what may follow it inside another. |
| StableJsonTheorems.TextDetermines | video-media-relay/contracts/relayApi.ts:81-85 | Equal text means equal values up to the order of entries. |
| StableJsonTheorems.SameText | video-media-relay/contracts/relayApi.ts:81-85 | Values equal up to the order of entries have equal text. |
| StableJsonTheorems.CanonicalForm | video-media-relay/contracts/relayApi.ts:81-85 | Two values have equal text if and only if they are equal up to the order of entries. |
| StableJsonTheorems.RequestHashExactly | video-media-relay/contracts/relayApi.ts:283-291 | The request hash ignores the order of entries and the top-level consent claim, and nothing else. |
| StableJsonText.QuoteMeans | video-media-relay/contracts/relayApi.ts:81-85 | Every string is written as a string of section 7 of RFC 8259 that stands for it: by letters for five controls, quote and backslash, by small hexadecimal digits for other controls and lone surrogates, and as it is for the rest. |
| StableJsonText.ObjectText | video-media-relay/contracts/relayApi.ts:81-85 | Entries are written in the order of their keys, by the first code unit that differs and a prefix first. |
| StableJsonText.ArrayText | video-media-relay/contracts/relayApi.ts:81-85 | The values of an array are written in its order. |
| StableJsonText.DecimalsAreNumbers | video-media-relay/contracts/relayApi.ts:81-85 | No number of JSON text is left out of the values that the theorems cover. |
| FlatScanner.JsonEscape | native/billiardbuddy-chrome/src/mcp.rs:449-466 | The loop computes the escaped text. |
| FlatScanner.JsonUnescape | native/billiardbuddy-chrome/src/mcp.rs:421-448 | The loop computes the unescaped text or refuses a malformed escape. |
| FlatScanner.RawJsonValueEnd | native/billiardbuddy-chrome/src/mcp.rs:384-420 | The loops find where a raw value ends. |
| FlatScanner.JsonMemberValue | native/billiardbuddy-chrome/src/mcp.rs:350-375 | The lookup loop terminates on every input and returns the raw value of the first matching member. |
| FlatScanner.NextMember | native/billiardbuddy-browser-use/src/main.rs:332-357 | Every round of the lookup consumes part of the text. |
| FlatScannerTheorems.UnescapeEscape | native/billiardbuddy-chrome/src/mcp.rs:421-466 | Unescaping undoes escaping, for every string. |
| FlatScannerTheorems.EscapeIsGrammatical | native/billiardbuddy-chrome/src/mcp.rs:449-466 | The printer's output is a string of section 7 of RFC 8259 that stands for the text, with exactly quote, backslash and the controls of C0, DEL and C1 escaped. |
| FlatScannerTheorems.UnescapeExactly | native/billiardbuddy-chrome/src/mcp.rs:421-448 | Every string of the grammar, whoever escaped it, is read as what it stands for, unless it writes half a surrogate pair by an escape: then and only then it is refused. |
| FlatScannerTheorems.PairIsRefused | native/billiardbuddy-chrome/src/mcp.rs:438-443 | An escaped pair of surrogates is refused. |
| FlatScannerTheorems.PassesValue | native/billiardbuddy-browser-use/src/main.rs:361-397 | Scanning over any JSON value, whatever its strings contain and however they are escaped, returns to the depth it started from. |
| FlatScannerTheorems.MemberOfRendered | native/billiardbuddy-chrome/src/mcp.rs:350-420 | For every object of JSON text, however its strings are escaped and wherever white space stands, the lookup returns exactly the text of the value of the first match, and nothing if there is none. |
| FlatScannerTheorems.StringMemberOfRendered | native/billiardbuddy-chrome/src/mcp.rs:376-383 | A string member is read as what its body stands for, one that the printer wrote as the original string; a member of another kind is none. |

## Left out

- Promise plumbing, timers and abort listeners of the schedulers: a timeout or abort is an event; resolution is not re-entrant, so each event is one step. Snapshots and queue ages are not modelled.
- The branch of `drain` for a user in line without a queue: it cannot be taken, because the line lists exactly the users with a non-empty queue.
- FairScheduler.First: asks the head of a queue only, as the code does; that a user always has the same token is not needed for any claim.
- Sums beyond 2^53, floating point and clock drift: integers are unbounded; `reserve` and `assertWithinBudget` read one clock value, and a relay transaction reads one.
- The usage summary of the ledger and its remaining percentages: it would only add easy members.
- The other capabilities of the gateway in the managed text protocol: their ledger rows have other operation names, and only text requests appear in `ManagedText`.
- UsageLedger.Find: the row of a hashed key is found by the pair that is hashed, since SHA-256 is taken as one to one.
- UsageObserving.Boundary: works on decoded text; the incremental UTF-8 decoder is not part of this model, and the JSON parser is a finite table of what it answers.
- ManagedTextTheorems.AtMostOneDispatch: counts calls of the text handler, which posts once, having no retry for this provider; capacity and rate limits inside it are an outcome of the answer event.
- Payload encoding of stored text results: a payload is its identity, its size, the amount it records and whether its reader accepts it.
- Schema migration, and the first assignment of account keys to old image quota rows.
- ImageTaskTheorems.NeverPaidTwice: the permit and the rate gate grant or throw, except that an aborted task is refused a rate token; the download of image addresses is part of reading an answer. A receipt that cannot be written is a failure without a receipt, after which the code releases the reservation.
- ImageTaskTheorems.InterruptedTask: which stored images still pass the inline check is a parameter; an output is named by its candidate index.
- ImageTaskTheorems.CancelledNeverCalls: the removal of an input file either happens or is cut off by a crash; a removal that throws is not modelled.
- ResultFiles.DiskBlobStore.PutOutputs: starts from files that are on disk for good; the cleanup after a failed system call, which removes outputs before the manifest, is not modelled.
- ResultFiles.DiskBlobStore.WriteJsonAtomically: a rename survives a crash as a whole or not at all, and nothing is assumed about the order in which unsynced changes reach the disk.
- VideoFence.ReleasedMeansUnsubmitted: the writes after the fence (results, polling, publication, confirmed cancellation) are one event with any state but `accepted` and any charge but a release, which allows more than the code does; polling and publication themselves are not modelled.
- VideoStoring.RelayStore.SweepOperations: clocks are not read; which operations changed within the grace time is a parameter.
- The leases, uploads, consent checks and object cleanup of the video relay.
- StableJsonTheorems.CanonicalForm: numbers are given by the text that JavaScript prints for them, which identifies -0 with 0; values that are not JSON, such as undefined, are excluded.
- StableJsonTheorems.RequestHashExactly: is stated for objects, which requests are; SHA-256 is taken as one to one.
- FlatScanner.RawJsonValueEnd: scans characters instead of bytes, which is the same because the marks it looks for are ASCII; the nesting depth is unbounded instead of 32 bits wide.
- FlatScannerTheorems.MemberOfRendered: numbers and literals are any text without marks and white space; a key that cannot be read ends the search, as in the code; text that is not JSON is only covered by what the loops compute.
- HTTP routing, header checks, identity, provider and object-store calls, environment parsing, policy files and deployment tools.
