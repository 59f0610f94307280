# Watch engine model

A Dafny model of the coordinated watch engine: many pollers, dispatchers, cancellers and a recovery
sweep working on reservation watches through one shared store, against a provider that can fail,
time out or lose an answer. The project states what the engine promises over whole runs and proves it.
`dafny verify dfyconfig.toml` checks everything.

## How it is built

- **What a watch is.** `Watches` holds the public document and its internal sidecar. `WatchCells` gathers
  everything the store keeps about one watch into a `Cell` and gives the atomic decisions on it as
  functions. `CellLaws` says what each means for the next, `CellRuns` what any sequence of them keeps.
- **Two stores.** `InMemoryWatchRepository` is the class over dictionaries; each method is proved to move
  one cell by its function and no other. `RedisWatchRepository` is the class over keys, sets and sorted
  sets, one method for each Lua script, with a ghost `model` that the keys stand for. A script moves the
  model by the same function, but for one input of the repair script (below). `WatchOracle` folds these
  functions over a trace of operations as the reference run, and `WatchOracle.Replay` drives both stores
  through the trace and holds every reply, every event and the final state of both to it. `ClaimText` is the `owner|token|expires` text the scripts parse.
- **The poll protocol.** `PollTiming` and `PollPlans` are the arithmetic and the documents a poll commits.
  `PollProtocol` is the state machine: a poller is a program counter between two store or provider calls,
  and steps of any pollers, crashes, clock ticks, cancellations, sweeps, dispatchers and other watches
  interleave freely. A booking call whose poller stopped waiting stays pending and can still take effect.
  `PollSafety` proves the invariant step by step; `PollGuarantees`, `PollHonesty`, `PollDeadline` and
  `DispatchFlights` draw the promises from it; `PollLimits` shows by runs what is not promised. `PollAnswers`
  takes down what each call of a poll returned and proves that these answers alone decide what it commits;
  `PollSuccess` runs an undisturbed poll to its end; `PollRhythm` counts the misses and outages of a history and
  proves when the next check comes and what an early expiry has spent.
- **The mock provider.** `MockCache` specifies the bounded slot cache with pins, tombstones and idempotency
  records. `InMemoryMockBooking` and `RedisMockBooking` (five coupled indexes) are proved against it. Where
  the stores break ties differently, the specification leaves the choice open; `MockLaws` says what a caller
  can count on from one call to the next, and `MockOracle` drives both
  through any history of calls and proves what every history keeps.
- **Around the engine.** `Recovery`, `Dispatcher`, `Throttle` and `ThrottleRuns`, `WatchHistory` and `Holidays`. `SortedSets`,
  `Tallies` and `Wrappers` are shared helpers.

Time is a whole number of microseconds. The clock is a parameter that never runs backwards. Random draws,
new identifiers and the provider's failures are parameters, so every theorem holds for all of them.

## Assumptions

- A booking call is made, and takes effect if it ever does, inside the lease it was made under (the lease is
  120 seconds, the provider timeout at most 45). It may take effect at any moment of that lease, also long
  after its poller timed out, moved on, committed or crashed. Nothing else is assumed about how pollers are
  scheduled or when they crash.
- Nobody but the watch's own polls books under its key, and since its id is new the provider has no record
  under that key when the watch is created.
- Watch ids and reservation tokens are not reused. Lease owners hold no bar character where the Redis store is concerned;
  `ClaimText.ClaimRoundTrip` shows that this is needed.
- The deadline results assume deliveries that respect the due time and an interval of at least one second,
  which the configuration enforces. The compatibility entry point that ignores the due time is a step of
  the protocol and covered by all the other results.

## Where the code and its description part

- A cancellation requested during a booking is documented as resolved so that it never lies. An outage
  or miss commit clears the request, and a later direct cancellation can then succeed beside a standing
  reservation: `PollLimits.DirectCancelCanStrand` is the run. A call that is still pending when the
  cancellation commits can strand one later, even where the provider was asked and knew none:
  `PollLimits.LateCallCanStrand`. `PollHonesty.HonestIff` is the exact condition, for direct cancellations
  and for those a poll commits.
- The history table says an owner recorded at creation is never erased. It is not erased, but it is never
  recorded if any later revision arrives first: `WatchHistory.OwnerKeptIffFirst`.
- The Redis throttle is described as the same sliding window. Two things set it apart. The in-process check
  refuses nothing on an empty window, so that a limit of zero acts as one, while the script then admits
  nobody (`ThrottleRuns.ZeroMeansOne`, `ThrottleRuns.ZeroDisagrees`). And with any positive limit an idle key
  goes uncounted while ten thousand others are busy; the two are the same throttle exactly as long as that
  happens to no request (`ThrottleRuns.SameHistoriesIff`). One uncounted request alone is still answered
  alike, so equal answers on one stream do not show that all were counted; the caller's next requests in the
  same instant do (`ThrottleRuns.BurstTellsIff`).
- The two stores differ on a repair whose sidecar names no window or due time: the in-memory store
  overwrites the stored sidecar and answers False (backend/db/repositories/watches.py:739-743), Redis writes
  nothing (backend/db/repositories/watches.py:1554-1555). `RedisWatchRepository.Repository.Synthesize` says so,
  and the oracle leaves such repairs out.

## Model

| member | source | states |
|---|---|---|
| `PollGuarantees.OneOwner` | backend/db/repositories/watches.py:747-758 | In every history of overlapping, crashed and expired polls at most one claim passes the ownership test; it carries the newest token, and the stored document and sidecar are still the ones it was shown, but for the phase and a recorded cancellation |
| `PollGuarantees.CommittedOnce` | backend/db/repositories/watches.py:526-571 | No window id and no revision is committed twice in any history, and commits come under strictly increasing tokens |
| `PollGuarantees.CommitIsFenced` | backend/services/watch_service.py:749-776 | A commit goes through exactly for the owner, consumes the current window and advances revision and cadence by one; otherwise nothing changes |
| `PollGuarantees.StoreCoherent` | backend/db/repositories/watches.py:760-799 | In every reachable state an active watch has one marker agreeing with its window, due time and next check, due by the deadline; a finished one has no marker, claim or dispatch lease but a retention deadline; the document is valid though no step validates it |
| `PollGuarantees.NoLostWork` | backend/db/repositories/watches.py:449-505 | Once the current window is due, a delivery is owned if and only if no live claim holds the watch |
| `PollGuarantees.OneReservation` | backend/services/watch_service.py:885-902 | Any number of redelivered, crashed and overlapping polls leaves at most one provider slot protected under the watch's key |
| `PollGuarantees.BookedIsReal` | backend/services/watch_service.py:806-825 | A BOOKED watch carries a confirmation of the provider: until that booking's retention ends the provider protects exactly it, under the watch's key and on its slot; and if no call took effect behind a poller's back it never protects anything else |
| `PollHonesty.HonestIff` | backend/services/watch_service.py:487-542 | A cancelled watch, however it was cancelled, can show no reservation in any continuation if and only if the provider knows none now and no booking call still pending can take effect |
| `PollHonesty.DirectCancelIsHonestIff` | backend/services/watch_service.py:308-319 | A direct cancellation that goes through stays free of any reservation, whatever still runs, if and only if at that moment the provider knows no booking for the key and no pending call can still take effect |
| `PollHonesty.PollCancelIsHonestIff` | backend/services/watch_service.py:487-542 | The same condition decides for a cancellation that a poll commits |
| `PollHonesty.CancellationIsHonest` | backend/services/watch_service.py:487-542 | In a history where every booking call takes effect before its poller stops waiting or never, a watch whose poll committed CANCELLED has no reservation under its key, at that moment or later |
| `PollHonesty.CanLand` | backend/services/watch_service.py:423-428 | Any pending call the condition speaks of does strand a reservation in some continuation: wait, let another search publish its slot, and it lands |
| `PollLimits.DirectCancelCanStrand` | backend/services/watch_service.py:548-604 | An explicit run books, loses the answer, commits the outage, and is then cancelled directly while the reservation stands |
| `PollLimits.LateCallCanStrand` | backend/services/watch_service.py:423-428 | Seeing no booking is not enough: the same run with the timed-out call still pending is cancelled while the provider knows none, and a reservation appears afterwards |
| `PollGuarantees.OneAnnouncement` | backend/services/watch_service.py:713-747 | Over any interleaving of polls, sweeps and cancellations a watch is announced at most once, under the status it ended with, and never for a cancellation |
| `PollGuarantees.FinishedForGood` | backend/db/repositories/watches.py:543-571 | Terminal status is absorbing: the stored document of a finished watch is the same after any continuation |
| `PollDeadline.DeadlineKept` | backend/services/watch_service.py:654-681 | With a budget that supports the deadline and punctual deliveries, a watch expires only within one second of its deadline by whatever route, and a miss expires it if and only if less than that second remains, never because attempts ran out |
| `PollDeadline.CommitsBounded` | backend/services/watch_policy.py:83-91 | No punctual history holds more commits, outages included, than 1 + ceil(lifetime / earliest delay) |
| `PollSafety.TraceKeeps` | backend/services/watch_service.py:372-480 | The whole protocol invariant holds in every state any run reaches |
| `PollSafety.StepKeeps` | backend/services/watch_service.py:408-542 | Every single step of a poller, canceller, sweep, dispatcher, crash, clock tick or other watch keeps the invariant |
| `PollSafety.SoleCaller` | backend/services/watch_service.py:67-70 | Whoever still has lease to call the provider is the only claim that can pass as owner, and no poll has finished the watch |
| `PollAnswers.PollDecides` | backend/services/watch_service.py:482-558 | In every history the answers a poll was given alone determine whether it has decided and what: FOUND if and only if a notify-only search published slots, BOOKED if and only if some call named a reservation, CANCELLED if and only if the permit or the final read told of a request, a miss if and only if the search was empty or every published slot was refused without a request, an outage if and only if a call failed and nothing settled it; and its calls were made in order, the slots one by one |
| `PollAnswers.PollEnds` | backend/services/watch_service.py:408-480 | What an owner's commit stores, in terms of those answers: status, slots, booking, attempts spent, time and error of the check; and it goes on to announce exactly FOUND, BOOKED and EXPIRED |
| `PollAnswers.PollGoesOn` | backend/services/watch_service.py:482-558 | A poll that has not decided can always make the one call its answers call for, whatever it will be told |
| `PollAnswers.DeliveryStarts` | backend/services/watch_service.py:372-406 | A delivery puts a poller to work if and only if it names the current window, due or waived, of an active watch without a live claim; then under a newer token, with a whole lease and the stored document |
| `PollAnswers.EndingsAreAnnounced` | backend/services/watch_service.py:713-747 | Where nobody crashes, a watch that was found, booked or has expired is announced, or someone is about to |
| `PollAnswers.AnythingMayHappen` | backend/services/watch_service.py:306-341 | The clock, crashes, deliveries, failures, cancellations, sweeps, late bookings and other watches are never held up by a poll |
| `PollAnswers.KeysDiffer` | backend/services/watch_service.py:899-903 | Two watches never share an idempotency key |
| `PollSuccess.NotifyPollFinds` | backend/services/watch_service.py:408-500 | From any reachable state an undisturbed notify-only poll ends FOUND with the slots its search published, and announces it |
| `PollSuccess.AutoPollBooks` | backend/services/watch_service.py:502-542 | From any reachable state an undisturbed auto-book poll ends BOOKED with the first slot its search published, which the provider then protects under the watch's key |
| `PollRhythm.NextCheckFollows` | backend/services/watch_service.py:560-705 | In every history an active watch is next checked at once if nothing was committed, a drawn delay after its last miss, or the doubled, capped and jittered interval after the last of n outages in a row, at most at the deadline; attempts and revision count the committed misses and outages, and the sidecar keeps the policy of creation time |
| `PollRhythm.ExpiredEarlySpentAll` | backend/services/watch_service.py:654-681 | A watch that expired before its last second had spent all its attempts, each on a committed miss: the smaller of ceiling and required budget, hence the whole ceiling if that does not support the deadline |
| `PollRhythm.ChecksGuaranteed` | backend/services/watch_service.py:654-705 | If every poll starts within some slack of its due time, a watch that is not overdue has had a check for each longest delay and slack passed since creation |
| `PollPlans.DecisionIsValid` | backend/services/watch_service.py:791-846 | Every document a poll builds by copying is valid, and either open with one later window due by the deadline and the cadence one higher, or closed |
| `PollPlans.DecisionStatus` | backend/services/watch_service.py:428-459 | Exactly which decision ends a watch in which status, misses and outages included |
| `PollPlans.DecisionBudget` | backend/services/watch_service.py:568-598 | Only an answered search costs an attempt; outages are counted apart and cleared by any answer; a booked watch names the confirmation and its one slot |
| `PollPlans.SuccessorIsSpaced` | backend/services/watch_service.py:675-695 | A successor window is due no sooner than the earliest delay after the poll, unless at the deadline itself |
| `PollPlans.SuccessorIsPunctual` | backend/services/watch_service.py:675-695 | The check after a miss is due exactly the drawn delay after the poll, the check after the n-th outage its jittered backoff after it, unless the deadline comes first |
| `PollPlans.DecisionStamps` | backend/services/watch_service.py:574-598 | Every commit keeps the terms of the watch and the policy in its sidecar; check time, last error, slots and booking move only with the decisions that report them |
| `PollTiming.EarliestIsTight` | backend/workers/scheduler.py:40-49 | The earliest delay is the exact lower edge of every jittered draw |
| `PollTiming.BudgetIsLeast` | backend/services/watch_policy.py:82-91 | The required budget is the least number of checks whose earliest spacing reaches the deadline, a watch is granted the greatest count exceeding neither that nor the ceiling, and a ceiling supports the deadline if and only if it reaches it too |
| `PollTiming.PolicyRecovered` | backend/services/watch_service.py:286-298 | Deriving again from the stored ceiling recovers the policy of creation time |
| `PollTiming.FindExponentLimit` | backend/services/watch_service.py:643-652 | The doubling loop ends with the exponent the specification names |
| `PollTiming.OneExponentLimit` | backend/services/watch_service.py:643-652 | That exponent is the unique least k with interval * 2^k >= maximum |
| `PollTiming.BaseIsCappedExponential` | backend/services/watch_service.py:606-623 | The base delay is min(interval * 2^(n-1), maximum) for every outage count |
| `PollTiming.SaturationIsInvisible` | backend/services/watch_service.py:631-641 | Saturating the stored outage counter changes no delay, now or after later outages, and bounds it by two more than the last doubling below the cap |
| `PollTiming.OutageDelayBounds` | backend/services/watch_service.py:620-629 | A delay exists if and only if a second of lifetime remains; it stays within the cap and the deadline, above the floor if and only if the cap is, and falls short of the earliest delay only at the deadline |
| `PollTiming.OutageDelayIs` | backend/services/watch_service.py:606-629 | The delay after n outages in a row is min(interval * 2^(n-1), maximum) moved by the draw, clipped only by floor, cap and deadline |
| `PollTiming.OutagesDouble` | backend/services/watch_service.py:606-623 | Undrawn, each further outage doubles the delay until the cap |
| `CellRuns.RunKeeps` | backend/db/repositories/watches.py:429-758 | Over any run of arbitrary store operations coherence and the claim snapshot survive and neither fence ever falls |
| `CellRuns.TerminalAbsorbs` | backend/db/repositories/watches.py:543-571 | No run of store operations changes a finished document |
| `CellRuns.OwnedIff` | backend/db/repositories/watches.py:449-505 | A window is granted if and only if it is current, due (or the schedule is waived) and free |
| `CellRuns.GenuineIssued` | backend/db/repositories/watches.py:484-505 | A granted claim carries a strictly newer token and the stored state |
| `CellRuns.GenuineKept` | backend/db/repositories/watches.py:747-758 | No operation by anyone breaks the agreement between a held claim and the store |
| `CellLaws.ClaimHolds` | backend/db/repositories/watches.py:449-505 | A granted claim is held for exactly its lease, under the next token, with what was stored; any other outcome changes nothing |
| `CellLaws.RefusalsMean` | backend/db/repositories/watches.py:449-482 | Each refusal of a claim is given if and only if its reason holds |
| `CellLaws.ReleaseFrees` | backend/db/repositories/watches.py:641-651 | While a claim is held nobody else gets the window; once its holder releases it anybody does, under the next token |
| `CellLaws.ReleaseIsOwn` | backend/db/repositories/watches.py:641-651 | A release by anyone but the holder changes nothing |
| `CellLaws.PermitMeans` | backend/db/repositories/watches.py:507-524 | A permit is the owner's until a cancellation was requested, and marks only the phase |
| `CellLaws.CommitMeans` | backend/db/repositories/watches.py:526-571 | Exactly the owner's commit goes through; it stores its document at the next revision, gives the window up, and ends or reschedules the watch with the one event or marker due |
| `CellLaws.SuccessorIsClaimable` | backend/db/repositories/watches.py:526-571 | What a commit schedules is the one window that can be claimed next, from its due time on |
| `CellLaws.CancelMeans` | backend/db/repositories/watches.py:573-599 | A cancellation ends the watch, or while a booking is under way is only recorded: a permit is then withdrawn and the owner's commit still goes through |
| `CellLaws.ExpireMeans` | backend/db/repositories/watches.py:601-639 | Expiry happens if and only if the watch is exhausted or it is forced and the revision read is current, with the one event naming it |
| `CellLaws.FinishedRefuses` | backend/db/repositories/watches.py:429-745 | Every operation on a finished watch says so and leaves it as it is |
| `CellLaws.CreateMeans` | backend/db/repositories/watches.py:429-447 | A new watch can be claimed as its sidecar says; creating it again changes nothing |
| `CellLaws.RepairMeans` | backend/db/repositories/watches.py:727-743 | A repair gives an active, unclaimed, unmarked watch the marker its sidecar names, and moves nothing else |
| `CellLaws.DispatchMeans` | backend/db/repositories/watches.py:353-427 | The right to publish is one holder's until its lease or redispatch time ends, free at once when released, and regranted under the next generation |
| `CellLaws.CleanupFrees` | backend/db/repositories/watches.py:653-684 | Cleanup takes a finished watch whole, so that its id is free, and only the retention entry of any other |
| `CellLaws.PruneMeans` | backend/db/repositories/watches.py:712-725 | Pruning drops an unreadable record whole but for its dispatch history and leaves a finished one alone |
| `Watches.WindowIdInjective` | backend/models/watch_runtime.py:43-50 | Two cadences of one watch never share a window id |
| `InMemoryWatchRepository.Repository.CreateWithSchedule` | backend/db/repositories/watches.py:429-447 | Creation opens document, sidecar, fence and marker together, or reports the existing record |
| `InMemoryWatchRepository.Repository.Claim` | backend/db/repositories/watches.py:449-505 | claim_window decides and moves the one named watch as specified, and no other |
| `InMemoryWatchRepository.Repository.Permit` | backend/db/repositories/watches.py:507-524 | begin_booking marks the phase only for the owner of an uncancelled window |
| `InMemoryWatchRepository.Repository.Commit` | backend/db/repositories/watches.py:526-571 | commit_window writes document, sidecar, marker, retention and event all at once or not at all |
| `InMemoryWatchRepository.Repository.Cancel` | backend/db/repositories/watches.py:573-599 | cancel_if_active finishes the watch, or only records the request while a booking is in flight |
| `InMemoryWatchRepository.Repository.Expire` | backend/db/repositories/watches.py:601-639 | expire_if_eligible finishes an exhausted watch and issues its one event |
| `InMemoryWatchRepository.Repository.Release` | backend/db/repositories/watches.py:641-651 | release_claim drops only the caller's own claim |
| `InMemoryWatchRepository.Repository.Synthesize` | backend/db/repositories/watches.py:727-743 | synthesize_marker repairs only an active, unclaimed, unmarked watch |
| `InMemoryWatchRepository.Repository.ListCandidates` | backend/db/repositories/watches.py:688-710 | Every active watch is listed exactly once, as it stands |
| `InMemoryWatchRepository.Repository.PruneIndexMember` | backend/db/repositories/watches.py:712-725 | Pruning touches the named record only |
| `InMemoryWatchRepository.Repository.DueScheduleMarkers` | backend/db/repositories/watches.py:337-351 | The markers inside the horizon, earliest first; one left out is no earlier than any returned |
| `InMemoryWatchRepository.Repository.LeaseDispatch` | backend/db/repositories/watches.py:353-398 | claim_dispatch grants the current window to one holder under a newer generation |
| `InMemoryWatchRepository.Repository.Mark` | backend/db/repositories/watches.py:400-412 | mark_dispatched extends the holder's own lease only |
| `InMemoryWatchRepository.Repository.Unlease` | backend/db/repositories/watches.py:414-421 | release_dispatch drops the holder's own lease only |
| `InMemoryWatchRepository.Repository.CleanupDue` | backend/db/repositories/watches.py:653-684 | Cleanup takes a full batch of overdue entries, earliest deadline first, removes exactly the finished ones whole, and reports exactly what is left |
| `RedisWatchRepository.Repository.CreateWithSchedule` | backend/db/repositories/watch_scripts.py:24-42 | The script takes the in-memory decision and its keys stand for the in-memory result |
| `RedisWatchRepository.Repository.Claim` | backend/db/repositories/watch_scripts.py:55-78 | Same decision, token and claim text as the in-memory store |
| `RedisWatchRepository.Repository.Permit` | backend/db/repositories/watch_scripts.py:82-102 | Same permit for any claim the store issued |
| `RedisWatchRepository.Repository.Commit` | backend/db/repositories/watch_scripts.py:106-140 | Same commit decision, event, schedule score and retention entry |
| `RedisWatchRepository.Repository.Cancel` | backend/db/repositories/watches.py:1297-1375 | The read-then-script retry loop reaches the in-memory outcome |
| `RedisWatchRepository.Repository.Expire` | backend/db/repositories/watches.py:1377-1461 | The guarded expiry script reaches the in-memory outcome and event |
| `RedisWatchRepository.Repository.Release` | backend/db/repositories/watch_scripts.py:228-237 | The script leaves the in-memory state, and answers as the in-memory store if and only if it finds the claim key, which it does for every live lease |
| `RedisWatchRepository.Repository.Synthesize` | backend/db/repositories/watch_scripts.py:328-342 | A sidecar with window and due time gets the in-memory repair decision, with the schedule entry restored; any other changes nothing and is refused |
| `RedisWatchRepository.Repository.CleanupDue` | backend/db/repositories/watch_scripts.py:176-198 | Same cleanup as in memory, ties among equal deadlines aside |
| `RedisWatchRepository.Repository.ExpireClaimKey` | backend/db/repositories/watch_scripts.py:72-78 | The native expiry takes the claim key if and only if its lease has ended, and changes nothing the in-memory store could see |
| `RedisWatchRepository.Repository.Later` | backend/db/repositories/watches.py:814-845 | Time passing keeps the keys standing for the same in-memory state |
| `ClaimText.ClaimRoundTrip` | backend/db/repositories/watch_scripts.py:43-51 | The claim text reads back as written if and only if the owner holds no bar |
| `ClaimText.ParsePrint` | backend/db/repositories/watch_scripts.py:43-51 | Every printed number reads back as itself |
| `WatchOracle.Replay` | tests/test_watch_repository_oracle.py:1-10 | On every trace of operations both stores give exactly the replies of the reference fold, issue exactly its events and end standing for exactly its state |
| `WatchOracle.Step` | tests/test_watch_repository_oracle.py:86-160 | One operation moves both stores and the reference alike, and is answered alike by all three |
| `MockCache.Exclusive` | backend/db/repositories/mock_booking.py:236-272 | Two keys never hold one protected slot and one key never holds two |
| `MockCache.PublishKeeps` | backend/db/repositories/mock_booking.py:171-210 | A search stays within capacity, returns an in-order selection of stored, pinned, unreserved slots, and touches no reservation |
| `MockCache.FoundInOrder` | backend/db/repositories/mock_booking.py:186-210 | The published result is an in-order subsequence of the candidates |
| `MockCache.EvictionIsFair` | backend/db/repositories/mock_booking.py:331-344 | A slot that is pinned, admitted by this search, or not chosen as an oldest victim never leaves |
| `MockCache.BookOutcome` | backend/db/repositories/mock_booking.py:236-272 | The answer to a booking is what the provider then holds; a refusal changes nothing |
| `MockCache.BookReplays` | backend/db/repositories/mock_booking.py:236-272 | Until its retention ends a booking replays for its key, whatever slot is asked for, and its slot is refused to every other key |
| `MockCache.BookKeeps` | backend/db/repositories/mock_booking.py:236-272 | A booking keeps protected bookings and tombstones in bijection with equal deadlines |
| `MockCache.CleanupKeeps` | backend/db/repositories/mock_booking.py:282-313 | Cleanup never breaks a live reservation, whichever due entries fill its batch |
| `MockCache.RunKeeps` | backend/db/repositories/mock_booking.py:171-313 | Over any run of searches, bookings, releases and cleanups the capacity and exclusivity hold, and a reservation is found unchanged until its retention ends |
| `MockLaws.AdmitMeans` | backend/db/repositories/mock_booking.py:186-210 | A candidate enters a search if and only if it is unreserved and stored already, or room is left or can be made; the stored slot is returned as stored, and at most the one victim leaves |
| `MockLaws.SearchFindsAll` | backend/db/repositories/mock_booking.py:171-210 | A search returns every unreserved candidate unless it ends with a full cache of pinned slots, and no reserved one |
| `MockLaws.NothingLeavesWithRoom` | backend/db/repositories/mock_booking.py:331-344 | Nothing leaves in a search that does not fill the cache |
| `MockLaws.SearchPins` | backend/db/repositories/mock_booking.py:171-210 | After a search exactly its results and the pins still live are pinned, the results to this operation for a whole term |
| `MockLaws.BookMeans` | backend/db/repositories/mock_booking.py:236-272 | Each answer to a booking is given if and only if its reason holds, and a booking touches its key, slot and pin only |
| `MockLaws.ReleaseMeans` | backend/db/repositories/mock_booking.py:274-280 | A release drops the operation's pins and nothing else |
| `MockLaws.CleanupMeans` | backend/db/repositories/mock_booking.py:282-313 | Cleanup takes nothing pinned, recently touched or protected, and with a batch large enough leaves nothing that is none of these |
| `InMemoryMockBooking.Store.PublishAndFilter` | backend/db/repositories/mock_booking.py:171-210 | The in-memory search is the specified one for some choice of oldest victims |
| `InMemoryMockBooking.Store.EvictOne` | backend/db/repositories/mock_booking.py:331-344 | The evicted slot is an oldest one neither pinned nor admitted |
| `InMemoryMockBooking.Store.BookSlot` | backend/db/repositories/mock_booking.py:236-272 | The in-memory booking takes the specified decision and state |
| `InMemoryMockBooking.Store.GetBooking` | backend/db/repositories/mock_booking.py:212-219 | A booking is known if and only if it is still protected |
| `InMemoryMockBooking.Store.ReleaseOperation` | backend/db/repositories/mock_booking.py:274-280 | Exactly the operation's pins go |
| `InMemoryMockBooking.Store.Cleanup` | backend/db/repositories/mock_booking.py:282-313 | Each kind of entry fills its batch from the due ones only |
| `RedisMockBooking.Store.PublishAndFilter` | backend/db/repositories/mock_booking_scripts.py:45-104 | The script over five indexes publishes as the in-memory store does, up to ties among equally old slots |
| `RedisMockBooking.Store.ReconcilePins` | backend/db/repositories/mock_booking_scripts.py:24-43 | After reconciliation every pin is live and the eviction index is all stored slots but the pinned |
| `RedisMockBooking.Store.PickVictim` | backend/db/repositories/mock_booking_scripts.py:70-90 | The head of the eviction index is an oldest evictable slot |
| `RedisMockBooking.Store.BookSlot` | backend/db/repositories/mock_booking_scripts.py:107-149 | Same booking decision and reservation as in memory |
| `RedisMockBooking.Store.GetBooking` | backend/db/repositories/mock_booking.py:411-422 | Same answer as in memory, whatever native expiry has removed |
| `RedisMockBooking.Store.ReleaseOperation` | backend/db/repositories/mock_booking_scripts.py:151-169 | Same release as in memory, with the slots back in the eviction index |
| `RedisMockBooking.Store.Cleanup` | backend/db/repositories/mock_booking_scripts.py:171-202 | Same cleanup as in memory, up to which due entries fill a batch |
| `RedisMockBooking.Store.ExpireRecord` | backend/db/repositories/mock_booking_scripts.py:107-149 | The native expiry takes a booking document if and only if its retention has ended, and changes no answer |
| `RedisMockBooking.Store.ExpireTomb` | backend/db/repositories/mock_booking_scripts.py:107-149 | The native expiry takes a tombstone if and only if it protects its slot no longer, and changes no answer |
| `RedisMockBooking.EvictableIsLru` | backend/db/repositories/mock_booking_scripts.py:45-104 | In the middle of any search the eviction index is exactly what may be evicted, with equal scores |
| `RedisMockBooking.ReadTomb` | backend/db/repositories/mock_booking_scripts.py:107-149 | A tombstone reads back as the key and deadline it was written with if and only if the key holds no bar |
| `MockOracle.RunMemory` | backend/db/repositories/mock_booking.py:144-313 | Whatever calls it is given, the in-memory store answers as some fair run of the specified cache and ends in that run's state |
| `MockOracle.RunRedis` | backend/db/repositories/mock_booking_scripts.py:45-202 | So does the Redis store, with native expiry of documents and tombstones in between |
| `MockOracle.BookingsStand` | backend/db/repositories/mock_booking.py:212-272 | In every such history a booking confirmed once answers every later booking and lookup of its key until its retention ends, and its slot is confirmed to no other key meanwhile |
| `MockOracle.HistoryKeeps` | backend/db/repositories/mock_booking.py:171-313 | Every such history ends within capacity, with protected bookings and tombstones in bijection |
| `Recovery.RunPass` | backend/services/watch_recovery.py:148-195 | After an undisturbed pass every record that was active is finished, or alive with a live claim or a marker due by its deadline; no other record moved and every counter is exact |
| `Recovery.ReconcileOne` | backend/services/watch_recovery.py:197-233 | Reconciling one record decides and changes as specified |
| `Recovery.ReconcileSettles` | backend/services/watch_recovery.py:197-233 | Any active record, however partial, is settled; a repair adds only the marker and keeps the sidecar but for the window and due time it must name: those the record still names, brought forward at most to the deadline, and a fresh sidecar at revision and cadence zero where there is none |
| `Recovery.ReconcileDrops` | backend/services/watch_recovery.py:197-210 | A record without a document is dropped but for its dispatch history, and a finished one is left to its retention |
| `Recovery.LateRepairIsSafe` | backend/services/watch_recovery.py:248-282 | With arbitrary protocol steps between reading and repairing, an applied repair lowers neither revision nor cadence and schedules nothing past the deadline |
| `Recovery.MigrationIsHonest` | backend/models/watch_runtime.py:98-146 | A migrated record requires the least total of attempts whose unspent part reaches the deadline, and is said to support it if and only if the attempts it has left do |
| `Dispatcher.DispatchDue` | backend/workers/dispatcher.py:97-118 | A sweep without failures leaves no due marker of its batch unclaimed (with a recovery grace of zero, none that is not yet due), counts exactly, and moves nothing but publishing rights |
| `Dispatcher.DispatchOne` | backend/workers/dispatcher.py:120-164 | One marker is claimed, published and deferred, or released again; the queue gains at most its one job |
| `Dispatcher.DispatchCases` | backend/workers/dispatcher.py:120-164 | Exactly claimable windows are published; success defers to the redispatch time, failure leaves the marker claimable at once |
| `Dispatcher.JobFor` | backend/workers/dispatcher.py:130-143 | A published job names its marker and generation and arrives at the due time, or at once if that is past |
| `DispatchFlights.SingleFlight` | backend/db/repositories/watches.py:353-427 | After a window is marked dispatched nobody gets to publish it again before its redispatch time, whatever runs meanwhile |
| `DispatchFlights.GenerationsIncrease` | backend/db/repositories/watches.py:377-398 | A later publishing right carries a strictly newer generation, whatever happened in between |
| `Throttle.SlidingWindowThrottle.Check` | backend/services/throttle.py:137-142 | The lazily purged deque decides as a filter over the full history, with nothing ever refused on an empty window |
| `Throttle.SlidingWindowThrottle.Live` | backend/services/throttle.py:193-207 | Purging leaves exactly the events inside the window and no empty key |
| `Throttle.SlidingWindowThrottle.Record` | backend/services/throttle.py:144-157 | An event goes uncounted if and only if its window is empty and the ceiling is full of keys with live windows |
| `Throttle.SlidingWindowThrottle.Sweep` | backend/services/throttle.py:209-213 | A sweep keeps exactly the keys with live windows and changes no history |
| `Throttle.SlidingWindowThrottle.Reset` | backend/services/throttle.py:159-164 | A reset forgets one key only |
| `Throttle.SlidingWindowThrottle.Release` | backend/services/throttle.py:182-189 | A release takes back one counted reservation, or nothing |
| `Throttle.SlidingWindowThrottle.Consume` | backend/services/throttle.py:177-180 | Check and count as one: the decision follows the full history, and an admitted request goes uncounted if and only if its window is empty and the ceiling is full of busy keys |
| `Throttle.SameDecisionLater` | backend/services/throttle.py:201-207 | What a purge dropped can change no decision now or later |
| `Throttle.LimitedIff` | backend/services/throttle.py:137-142 | A key is at its limit if and only if the last event but max_events - 1 is still inside the window |
| `Throttle.ReleasedIs` | backend/services/throttle.py:182-189 | Taking back a reservation removes exactly the live event with its token |
| `Throttle.RedisSlidingWindowThrottle.Consume` | backend/services/throttle.py:216-224 | The Lua script admits exactly what the full history allows |
| `Throttle.RedisSlidingWindowThrottle.ExpireKey` | backend/services/throttle.py:216-224 | The key's own expiry takes the key if and only if its time has come, and only events outside the window with it |
| `ThrottleRuns.OneRequestIff` | backend/services/throttle.py:177-224 | On one history the two throttles decide one request alike if and only if the limit is positive or the window is not empty; with a positive limit they also count alike if and only if the request does not go uncounted |
| `ThrottleRuns.SameHistoriesIff` | backend/services/throttle.py:177-224 | Over any stream, with a positive limit, the two hold the same histories if and only if no request went uncounted, and then they gave the same answers |
| `ThrottleRuns.BurstTellsIff` | backend/services/throttle.py:144-157 | The first request to go uncounted is still answered alike; the two then agree on every burst of the same caller in the same instant if and only if it was counted after all |
| `ThrottleRuns.CeilingIsReached` | backend/services/throttle.py:144-157 | For any positive limit and window ten thousand callers and one more bring this about |
| `ThrottleRuns.ZeroMeansOne` | backend/services/throttle.py:137-142 | In process a limit of zero behaves as a limit of one, on every stream |
| `ThrottleRuns.ZeroDisagrees` | backend/services/throttle.py:216-224 | At a limit of zero the two agree on no stream but the empty one |
| `ThrottleRuns.QuotaHolds` | backend/services/throttle.py:216-224 | However requests arrive, any max_events + 1 consecutive events counted by the Lua script against one key span a whole window |
| `ThrottleRuns.LocalQuotaHolds` | backend/services/throttle.py:177-180 | So do the events counted in process, with a limit of zero read as one |
| `ThrottleRuns.RunLocal` | backend/services/throttle.py:114-213 | A stream driven through the in-process class is answered and counted as specified; its counted events keep the quota, and so do its admitted ones while none goes uncounted |
| `ThrottleRuns.RunRedis` | backend/services/throttle.py:227-316 | A stream driven through the Redis class, with native expiry in between, is answered and counted as specified, and everything it admits keeps the quota |
| `WatchHistory.Converges` | backend/db/repositories/watch_history.py:59-82 | In whatever order, and however often, one watch's records arrive, the row ends at the largest revision |
| `WatchHistory.OrderIsIrrelevant` | backend/db/repositories/watch_history.py:59-82 | Two deliveries of the same records leave the same state |
| `WatchHistory.AccountKept` | backend/db/repositories/watch_history.py:59-105 | Once an account owns a row, ownerless records and anonymous claims never change it |
| `WatchHistory.ClaimsOfOthers` | backend/db/repositories/watch_history.py:102-105 | However other clients claim, a row no record named an account for stays without one and with its client |
| `WatchHistory.OwnClaimReaches` | backend/db/repositories/watch_history.py:102-105 | The claim of the row's own client reaches it whenever it comes, and stays |
| `WatchHistory.OwnerKeptIffFirst` | backend/db/repositories/watch_history.py:65-70 | The creating client is kept if and only if the creation record arrives before every later revision |
| `WatchHistory.Table.Record` | backend/db/repositories/watch_history.py:118-148 | A record opens a row, replaces the state of an active one if it is newer (without revisions, no older), or changes nothing; it sets the ownership it names and keeps the rest, and creation time never moves |
| `WatchHistory.Table.ClaimAnonymous` | backend/db/repositories/watch_history.py:102-105 | A row gets the account if and only if it is this client's and has none; no other row and no other column changes |
| `Holidays.EasterIsSunday` | backend/data/venues.py:36-49 | For every year from 1 the computus yields a real Sunday from 22 March to 25 April, the first after the paschal full moon of the Gregorian epact |
| `Holidays.MoonTermIsEpact` | backend/data/venues.py:36-49 | The moon term of the computus is the full moon reckoned from golden number, solar and lunar correction, in the two exceptional cases as well |
| `Holidays.NthWeekdayIs` | backend/data/venues.py:28-33 | The result is the one day with that weekday in the nth week of the month |
| `Holidays.VictoriaDayIs` | backend/data/venues.py:52-56 | The result is the one Monday among 18 to 24 May |
| `Holidays.OrdinalCounts` | backend/data/venues.py:28-56 | The day numbers the three dates are checked against count the calendar day by day |

## Left out

- RedisWatchRepository.Repository.CreateWithSchedule: covers watches created active, as the service creates every one; a watch stored already finished would have a marker, and no retention deadline.
- RedisWatchRepository.Repository.Claim: covers owners without a bar; the text of any other does not read back (`ClaimText.ClaimRoundTrip`).
- RedisWatchRepository.Repository.Release: answers False where the in-memory store answers True once native expiry has taken the key of a dead claim; `WatchOracle` compares the reply for live claims only.
- RedisWatchRepository.Repository.Commit: does not return the stored document on a finished watch, as the repository drops it from the script reply; status and event are compared.
- RedisWatchRepository.Repository.Cancel: runs its read and its script without another client in between, because a permit granted between them is not seen by its revision check.
- RedisWatchRepository.Repository.Permit: covers claims the store issued; a forged snapshot would overwrite the sidecar in Redis and not in memory.
- RedisMockBooking.Store.BookSlot: covers keys without a bar, as every key the service builds from a watch id is.
- WatchOracle.Replay: leaves out cleanup, because which of several equal deadlines fills a batch is each store's own choice, and the fence of a cleaned id starts over.
- RedisMockBooking.Store.ReleaseOperation: the time to live of the set of an operation's pins is not modelled; it is renewed with every pin, so it ends no earlier than the last of them.
- Throttle.RedisSlidingWindowThrottle.Consume: leaves out the separate check, record, reset and release calls of the Redis throttle, which are one command each.
- Dispatch leases in Redis: one key per window with a native expiry, so a late mark finds no lease where memory still finds one; dispatch is modelled on the in-memory store and on the protocol.
- Redis instants are whole milliseconds; the model keeps both stores on one scale and does not model the truncation.
- Native expiry of documents and sidecars after retention, and of the dispatch fence: a backstop behind cleanup.
- The legacy polling path, `save`, `delete` and the reuse of a deleted id: they bypass the fence.
- The search query, venue, party and notification payloads inside a watch, and the shape of a poll's reply.
- The booking and event identifiers are kept as the values they are hashed from.
- Float rounding of delays: durations are exact.
- Provider calls that take effect after the lease they were made under has ended.
- Failures of the store itself during recovery, leader election, and the loop that repeats passes.
- Slot generation, venue matching, accounts, sessions, email, HTTP routes, configuration parsing and the model-backed prompt path.
