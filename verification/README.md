# Verification of the free-claude-code core

A Dafny model of the part of the gateway that decides whether, when and to whom an upstream call is
made, and of what the client then sees. `dafny verify dfyconfig.toml` checks it.

The modelled code is asyncio code: between two suspension points it runs alone. So each such section is
one step on an abstract state, and a run is any interleaving of steps of any number of sessions, tasks
and callers, with cancellation at the explicit waits. Every component has the same layout:

* a specification (`...Spec`): the state, the events, when an event is possible, and the state after it;
* an invariant (`...Invariant`) kept by every event;
* theorems about whole runs (`...Runs`), and what each section achieves in every state of every run, said in
  the fields of the state without the functions that define the section (`...Operations`);
* the class with the source's fields, whose methods are the sections and are proved to move the abstract
  state exactly as the specification says. What asyncio keeps for the source, a class here keeps in
  fields of its own: where each coroutine is suspended (`phase`, `lock`, `closer`, `calls`, `waiters`,
  `cleanup`), who holds a lease (`holders`), which overwritten task is still scheduled (`strays`), and
  the readings of the clock (`clock`, `now`).

Smaller components keep these parts in one file. Promises about reachable states are stated of the states
of a run, or of the state after any operations.

| part | files |
|---|---|
| provider admission | `SlidingWindow`, `AdmissionSpec`, `AdmissionInvariant`, `AdmissionRuns`, `AdmissionOperations`, `Admission`, `RetryLoop` |
| provider generations and leases | `GenerationsSpec`, `GenerationsInvariant`, `GenerationsRuns`, `GenerationsOperations`, `Generations` |
| pending voice registry | `VoiceSpec`, `VoiceInvariant`, `VoiceRuns`, `VoiceOperations`, `Voice` |
| fallback executor | `Execution`, `ExecutionProofs`, `ExecutionTimes` |
| early retry | `StreamRecovery` |
| compacting queue | `QueueSpec`, `QueueInvariant`, `QueueRuns`, `QueueOperations`, `CompactingQueue` |
| client stream and response lifetime | `ResponseStreams`, `ResponseLifetime` |
| model ids, routing, model lists | `ModelIds`, `Routing`, `Catalog` |
| failure classification | `FailurePolicy` |

Time is an integer number of ticks. What comes from outside is a parameter of the step it reaches: clock
readings, jitter (any value in its range), parsed `Retry-After` (section 10.2.3 of RFC 9110) and reset
delays, what an upstream stream yields, how an awaited call ends, what other sessions do meanwhile.

Promises that turned out not to hold for all inputs are stated with their exact condition and their
counterexamples: `ResponseLifetime.ReleasedExactlyOnce` with `AbnormalCloseKeepsTheResource`,
`ExecutionProofs.FallbackHasOneWinner` with `RaisingCloseStopsFallback`,
`ExecutionProofs.DeadlineFallback` with `AnsweredCancellationFallsBack`, `QueueRuns.ShutdownSettles` with
`GroupOutlivesShutdown`, and `FailurePolicy.ClassifierAgreesWithRetry` with `StatusAboveRangeDisagrees`.
Three premises are shown to be needed: on when a refresh is started
(`GenerationsRuns.RefreshDuringReplaceIsUnsafe`), on the names of providers
(`Routing.PrefixAsProviderMisroutes`), and on what an override answers to a canonical failure
(`FailurePolicy.RemarkingOverrideDisagrees`).

## Model

| member | source | states |
|---|---|---|
| SlidingWindow.StrictWindow | src/free_claude_code/core/rate_limit.py:9-65 | Over any run of concurrent acquirers every half-open interval of one window's length holds at most the limit of recorded acquisitions, and the deque is exactly the history later than the last cutoff. |
| SlidingWindow.WaitsOnlyWhenFull | src/free_claude_code/core/rate_limit.py:43-65 | A caller is made to wait exactly when the last window already holds the limit, and then for a positive time. |
| SlidingWindow.WaitIsExact | src/free_claude_code/core/rate_limit.py:43-65 | The wait is exact: with nobody coming in between, the window has room at a later moment if and only if the time the caller was told to wait has passed. |
| SlidingWindow.RecordsOnlyAllowed | src/free_claude_code/core/rate_limit.py:35-65 | An acquisition is recorded exactly when its condition held in that section and there was room; otherwise the history is unchanged. |
| SlidingWindow.SpacedBoundsCount | src/free_claude_code/core/rate_limit.py:43-65 | Acquisitions that lie one limit apart in order being a window apart in time is what bounds every interval. |
| SlidingWindow.StrictSlidingWindowLimiter.AcquireSection | src/free_claude_code/core/rate_limit.py:43-65 | One locked pass, with its popping loop, prunes, decides and records as the specification section does. |
| AdmissionSpec.RetryDelay | src/free_claude_code/providers/admission.py:703-720 | The delay is the largest of the capped backoff with jitter, the provider's Retry-After and the reported reset window. |
| AdmissionSpec.BackoffDoublesUpToTheCap | src/free_claude_code/providers/admission.py:710-711 | The backoff starts at the base delay, doubles with each attempt and stops at the cap. |
| AdmissionRuns.QuietPeriod | src/free_claude_code/providers/admission.py:325-428 | After a failure at t that opens, re-times or exhausts an episode with delay d, no session claims an attempt before t+d, through stale permits, cancelled sleepers and new leaders. |
| AdmissionRuns.ClaimsAreGated | src/free_claude_code/providers/admission.py:267-295 | An attempt is claimed only with no episode open, or as the one live probe of the open non-terminal generation, by its leader. |
| AdmissionRuns.ProbeActiveMeansOneProbe | src/free_claude_code/providers/admission.py:397-428 | `probe_active` is set exactly when a session holds an unresolved probe permit, and that permit is current. |
| AdmissionRuns.LateOutcomeLeavesEpisode | src/free_claude_code/providers/admission.py:430-569 | The outcome of a normal permit never changes an open episode's leader, timing, error or terminal state; at most its session joins the waiters. |
| AdmissionRuns.GenerationsIncrease | src/free_claude_code/providers/admission.py:625-649 | Generations never decrease along a run and an episode that ended never comes back under its number. |
| AdmissionRuns.FreshAfter | src/free_claude_code/providers/admission.py:625-649 | Once no episode is open, the next one seen has a generation not used before. |
| AdmissionRuns.TerminalFanOut | src/free_claude_code/providers/admission.py:527-569 | When an episode exhausts, each session then waiting never claims again in the run and its gate passes raise that episode's error. |
| AdmissionRuns.LateFailureSharesTerminalError | src/free_claude_code/providers/admission.py:510-569 | A retryable failure arriving during a terminal episode is told to retry but carries that episode's error. |
| AdmissionRuns.TerminalIsFinal | src/free_claude_code/providers/admission.py:327-370 | A leader is never its own waiter; a terminal episode has no leader, probe or waiters and changes only by expiring into a fresh generation led by the session that finds it expired. |
| AdmissionRuns.CancelledLeaderIsReplaced | src/free_claude_code/providers/admission.py:651-698 | When the leader is cancelled at a wait or closes its probe unresolved, the episode stays open without a leader through whatever else happens, until the next session that has not failed passes the gate and leads it. |
| AdmissionRuns.ClaimsAreCounted | src/free_claude_code/providers/admission.py:64-68 | A session's counter is the number of attempts it claimed in the run. |
| AdmissionRuns.BudgetAndSlots | src/free_claude_code/providers/admission.py:267-295 | A session claims at most its budget, a granted slot never finds it spent, and free slots plus unclosed attempts equal the configured concurrency in every state. |
| AdmissionRuns.SlotsReturnOnce | src/free_claude_code/providers/admission.py:182-193 | However often attempts are closed, the attempts a session claimed are exactly those that gave their slot back, each once, and the one it may still hold. |
| AdmissionRuns.ClosingAgainChangesNothing | src/free_claude_code/providers/admission.py:182-193 | A second close of the same attempt changes nothing, whatever happened in between, even while a later attempt of the session is open. |
| AdmissionRuns.FirstReportCounts | src/free_claude_code/providers/admission.py:135-180 | A second outcome reported on an attempt changes nothing and is never answered with a retry. |
| AdmissionRuns.RateIsBounded | src/free_claude_code/providers/admission.py:267-295 | In every admission run the recorded starts obey the sliding window. |
| AdmissionRuns.NothingLeftBehind | src/free_claude_code/providers/admission.py:182-193 | When all sessions are idle every slot is free and no probe is active. |
| AdmissionRuns.ToldToRetryMayOpen | src/free_claude_code/providers/admission.py:297-323 | A session told to retry finds budget left when it opens its next attempt. |
| AdmissionOperations.FailureIsAnswered | src/free_claude_code/providers/admission.py:510-534 | In every run a failure is answered with a retry if and only if policy calls it retryable, the attempts claimed so far are fewer than the budget, and no heeded signal says that tokens or requests are used up. |
| AdmissionOperations.FailureMovesEpisode | src/free_claude_code/providers/admission.py:510-569 | What a failure leaves: with no episode a new one, led by the session if it may retry and terminal otherwise; after a probe the same one, re-timed, terminal or closed; and after a normal attempt an open one only gains a waiter. |
| AdmissionOperations.OutcomesMoveEpisode | src/free_claude_code/providers/admission.py:430-508 | A probe's success closes its episode, its correction keeps the lead and may probe at once, its unresolved close leaves no leader; without a probe none touches the episode. |
| AdmissionOperations.GateDecides | src/free_claude_code/providers/admission.py:325-370 | Each pass of the gate: who gets an error, a permit at once, a probe, a sleep until the ready time or a wait, and what an expired episode gives way to. |
| AdmissionOperations.OpeningNeedsBudget | src/free_claude_code/providers/admission.py:267-270 | Opening fails with the budget error exactly if the session has claimed its whole budget in the run. |
| AdmissionOperations.WaitersLeave | src/free_claude_code/providers/admission.py:346-364 | A woken waiter passes the gate again, a cancelled one is idle and leaves the waiters of the episode it waited for. |
| AdmissionOperations.SleepsEnd | src/free_claude_code/providers/admission.py:371-395 | A leader whose sleep is over always still leads its episode and probes it; a cancelled one only gives up the lead. |
| AdmissionOperations.PermitsAreGivenBack | src/free_claude_code/providers/admission.py:291-295 | Cancelled between permit and claim a session is idle, and a probe's episode is left without a leader. |
| AdmissionOperations.RateDecides | src/free_claude_code/providers/admission.py:271-281 | A start is recorded exactly if the window has room and the permit is current, and a stale permit goes back to the gate. |
| AdmissionOperations.SlotDecides | src/free_claude_code/providers/admission.py:282-295 | A granted slot is used exactly by a current permit and given back otherwise. |
| AdmissionOperations.OthersAreUntouched | src/free_claude_code/providers/admission.py:556-569 | A section changes no other session, except that an exhausting failure fails the waiters. |
| AdmissionOperations.NewSessionsAreFree | src/free_claude_code/providers/admission.py:256-265 | A new session is idle, without error and without attempts. |
| Admission.ProviderAdmissionController.constructor | src/free_claude_code/providers/admission.py:205-254 | A new controller is in the start state of the specification. |
| Admission.ProviderAdmissionController.NewRetrySession | src/free_claude_code/providers/admission.py:256-265 | A new session starts with nothing claimed and no error. |
| Admission.ProviderAdmissionController.OpenAttempt | src/free_claude_code/providers/admission.py:267-270 | The budget is checked before the gate; a spent session gets the "session is exhausted" error. |
| Admission.ProviderAdmissionController.GatePass | src/free_claude_code/providers/admission.py:325-395 | The terminal check and the locked gate section move the state as specified and give the specified outcome. |
| Admission.ProviderAdmissionController.LeadOrWait | src/free_claude_code/providers/admission.py:346-370 | With an episode open the session leads, sleeps, probes or waits as specified. |
| Admission.ProviderAdmissionController.WaitCancelled | src/free_claude_code/providers/admission.py:358-364 | A cancelled waiter leaves the waiter set and nothing else changes. |
| Admission.ProviderAdmissionController.SleepOver | src/free_claude_code/providers/admission.py:381-392 | After its sleep the leader probes only if it still leads the same open episode; otherwise it goes back to the gate. |
| Admission.ProviderAdmissionController.SleepCancelled | src/free_claude_code/providers/admission.py:683-698 | A cancelled sleeping leader gives up the lead without shortening the wait. |
| Admission.ProviderAdmissionController.AcquireRate | src/free_claude_code/providers/admission.py:267-287 | The rate acquisition is conditional on the permit being current. |
| Admission.ProviderAdmissionController.PermitCancelled | src/free_claude_code/providers/admission.py:291-295 | Cancelled between permit and claim, the session abandons its probe and holds nothing. |
| Admission.ProviderAdmissionController.ClaimSlot | src/free_claude_code/providers/admission.py:282-295 | A slot is kept only by a current permit with budget; otherwise it is returned and the probe abandoned. |
| Admission.ProviderAdmissionController.AttemptSucceeded | src/free_claude_code/providers/admission.py:135-141 | A successful matching probe closes the episode; on a resolved attempt nothing happens. |
| Admission.ProviderAdmissionController.CloseProbedEpisode | src/free_claude_code/providers/admission.py:430-452 | A current probe that was answered, well or with a failure not to be retried, closes the episode; any other permit leaves it alone. |
| Admission.ProviderAdmissionController.AttemptCorrected | src/free_claude_code/providers/admission.py:143-148 | A corrected probe frees the gate for an immediate further probe; on a resolved attempt nothing happens. |
| Admission.ProviderAdmissionController.CorrectProbedEpisode | src/free_claude_code/providers/admission.py:454-467 | A current probe's leader keeps the lead and may probe again at once. |
| Admission.ProviderAdmissionController.ReportFailure | src/free_claude_code/providers/admission.py:150-180 | On a resolved attempt nothing happens and the answer is no; otherwise the failure is acted on and the answer is whether a retry may follow. |
| Admission.ProviderAdmissionController.FailProbe | src/free_claude_code/providers/admission.py:510-569 | A failure rejects, joins, leads, re-times or exhausts as specified, and a retry may follow exactly if policy, budget and quota allow it. |
| Admission.ProviderAdmissionController.FailRecovery | src/free_claude_code/providers/admission.py:562-567 | The fan-out loop gives exactly the waiters the episode's error. |
| Admission.ProviderAdmissionController.Exhaust | src/free_claude_code/providers/admission.py:548-569 | A governing failure that cannot be retried makes the episode terminal, without leader, probe or waiters. |
| Admission.ProviderAdmissionController.JoinOrLead | src/free_claude_code/providers/admission.py:530-547 | A retryable failure leads a new episode, re-times the probed one, shares a terminal error, or joins the waiters. |
| Admission.ProviderAdmissionController.CloseAttempt | src/free_claude_code/providers/admission.py:182-193 | Closing an open attempt returns its slot and abandons an unresolved probe; closing any attempt again does nothing. |
| RetryLoop.OpenAttempt | src/free_claude_code/providers/admission.py:267-295 | Against any environment the loop takes every turn it is given, each at the first time it can, until it is admitted with one more attempt claimed or fails with the error of its session or of a terminal episode; with no turn left it is cancelled at the wait it has reached. In the last two cases it holds nothing. |
| RetryLoop.CallAndClose | src/free_claude_code/providers/admission.py:304-323 | Around the call the attempt is reported on and closed in every case; the loop goes round again exactly if the call failed retryably with budget and quota left; and the report closes, re-times, ends or opens the episode accordingly. |
| RetryLoop.RunWithRetry | src/free_claude_code/providers/admission.py:297-323 | Against any environment the function is called again exactly as long as its calls fail in a way that is retried, at most `max_attempts` times; a failure is raised only if it is not retried; the loop is over at the first turn that is not to be gone on from and not before; it never ends with the "session is exhausted" error, and the session holds no slot and no probe. |
| GenerationsRuns.NoUseAfterClose | src/free_claude_code/runtime/provider_manager.py:421-474 | Cleanup runs only on a retired generation that nothing holds, and from then on nothing in the run ever holds it again. |
| GenerationsRuns.UsedRuntimesAreLive | src/free_claude_code/runtime/provider_manager.py:80-135 | The runtime behind a lease, a running refresh or an account change is neither cleaned nor being cleaned. |
| GenerationsRuns.LeaseCountIsExact | src/free_claude_code/runtime/provider_manager.py:318-349 | `active_leases` is the number of unreleased leases plus running refreshes, and `drained` is set exactly when there are none. |
| GenerationsRuns.ShutdownCleansWhenIdle | src/free_claude_code/runtime/provider_manager.py:288-316 | When shutdown starts cleaning, nothing is in use, although it saw each generation drained at a moment of its own. |
| GenerationsRuns.RuntimeConservation | src/free_claude_code/runtime/provider_manager.py:229-316 | Every runtime the factory made is in exactly one of current, retired and not closed, unpublished, cleaned. |
| GenerationsRuns.FailedReplaceChangesNothing | src/free_claude_code/runtime/provider_manager.py:229-286 | Over the whole call, from its beginning to any failing end and through everything interleaved: current, next number and retirement are unchanged, the retired set only loses cleaned generations, and every candidate built is in exactly one of unpublished and cleaned. |
| GenerationsRuns.OneCandidate | src/free_claude_code/runtime/provider_manager.py:229-260 | A failing replacement built at most one candidate. |
| GenerationsRuns.ReplacePublishes | src/free_claude_code/runtime/provider_manager.py:229-286 | A successful replacement publishes under the next number, keeps every lease, and cleans the previous generation at once exactly if nothing holds it. |
| GenerationsRuns.CloseIsComplete | src/free_claude_code/runtime/provider_manager.py:288-316 | A `close` that returned normally left everything cleaned and nothing in use. |
| GenerationsRuns.ClosedForGood | src/free_claude_code/runtime/provider_manager.py:129-135 | After that, for the rest of the run, nothing is in use and acquires are refused. |
| GenerationsRuns.RefreshDuringReplaceIsUnsafe | src/free_claude_code/runtime/provider_manager.py:178-187 | A run in which the refresh is started while a replacement is between cancelling the old refresh and publishing: it holds a runtime that is being cleaned, and then cleaned; the other theorems are about runs without such a start. |
| GenerationsOperations.HoldsAreExact | src/free_claude_code/runtime/provider_manager.py:129-135 | Section by section: a granted lease or a started refresh becomes a holder, giving back removes exactly it, and nobody else's hold is touched. |
| GenerationsOperations.InUseUntilGivenBack | src/free_claude_code/runtime/provider_manager.py:129-135 | A granted lease, and a refresh that starts, hold the generation that was current or scheduled from then on until they give it back, and it is neither closed nor being cleaned meanwhile. |
| GenerationsOperations.GenerationsMove | src/free_claude_code/runtime/provider_manager.py:318-349 | The life of a generation: retired when replaced or shut down; its cleanup begins exactly when it is retired, open and unheld and is let go of, replaced or shut down; closed by a cleanup that ended well. |
| GenerationsOperations.OnlyReplaceMakesGenerations | src/free_claude_code/runtime/provider_manager.py:262-283 | Only a successful replacement makes a generation, on the runtime just built, and makes it current. |
| GenerationsOperations.RuntimesMove | src/free_claude_code/runtime/provider_manager.py:399-419 | A runtime is kept from a failed commit until a cleanup of it ends well, and is cleaned exactly by such a cleanup or its generation's. |
| GenerationsOperations.KeptCandidatesAreRetried | src/free_claude_code/runtime/provider_manager.py:241-242 | A replacement builds only after the cleanup of every kept candidate was tried once more and failed again for those still kept. |
| GenerationsOperations.CloseSucceedsIffClean | src/free_claude_code/runtime/provider_manager.py:288-316 | `close` returns normally if and only if no retired generation is open and no candidate is kept; nothing else closes the manager, and only `close` makes it refuse. |
| GenerationsOperations.ShutdownWaitsForAll | src/free_claude_code/runtime/provider_manager.py:288-316 | `close` waits until every generation that is not closed was seen without holders, then for the cleanup of each, then for another cleanup of every kept candidate; nothing but its own sections moves it on. |
| GenerationsOperations.ShutdownCleansEverything | src/free_claude_code/runtime/provider_manager.py:303-311 | When shutdown cleans, every generation that is not closed is being cleaned. |
| GenerationsOperations.OldRefreshIsAwaited | src/free_claude_code/runtime/provider_manager.py:391-397 | Replacement, explicit refresh and shutdown do not go on before the background refresh they cancelled holds nothing. |
| GenerationsOperations.RefreshTaskMoves | src/free_claude_code/runtime/provider_manager.py:178-187 | When the one background refresh is scheduled, runs and is forgotten. |
| GenerationsOperations.LockIsTakenAndFreed | src/free_claude_code/runtime/provider_manager.py:229-286 | When the replace lock is taken and when it is free again, however the operation ends. |
| Generations.ProviderRuntimeManager.Acquire | src/free_claude_code/runtime/provider_manager.py:129-135 | A lease is granted exactly when the manager is not closing or closed. |
| Generations.ProviderRuntimeManager.Release | src/free_claude_code/runtime/provider_manager.py:318-326 | A lease is given back once; the last one of a retired generation starts its cleanup. |
| Generations.ProviderRuntimeManager.StartModelListRefresh | src/free_claude_code/runtime/provider_manager.py:178-187 | A background refresh is scheduled for the current generation unless one is pending or the manager refuses. |
| Generations.ProviderRuntimeManager.RefreshStarts | src/free_claude_code/runtime/provider_manager.py:328-337 | A refresh that starts holds its generation, unless that one is closed. |
| Generations.ProviderRuntimeManager.StrayStarts | src/free_claude_code/runtime/provider_manager.py:328-337 | A scheduled refresh that was overwritten starts like any other: it holds its generation unless that is closed. |
| Generations.ProviderRuntimeManager.RefreshEnds | src/free_claude_code/runtime/provider_manager.py:348-349 | A refresh that ends, however it ends, releases its generation. |
| Generations.ProviderRuntimeManager.CancelRefresh | src/free_claude_code/runtime/provider_manager.py:391-397 | The pending refresh is dropped and a running one is what has to be waited for. |
| Generations.ProviderRuntimeManager.ReplaceBegins | src/free_claude_code/runtime/provider_manager.py:237-241 | A replacement is refused exactly when shutting down; otherwise the old refresh is cancelled first. |
| Generations.ProviderRuntimeManager.CandidateCleanupEnds | src/free_claude_code/runtime/provider_manager.py:399-412 | A failed candidate is forgotten only when its cleanup succeeded. |
| Generations.ProviderRuntimeManager.ExplicitRefreshRuns | src/free_claude_code/runtime/provider_manager.py:189-195 | An explicit refresh holds the generation that is current under the replace lock. |
| Generations.ProviderRuntimeManager.ReplaceBuilds | src/free_claude_code/runtime/provider_manager.py:229-286 | Factory, commit and publication, with both failure paths, as specified. |
| Generations.ProviderRuntimeManager.CleanupEnds | src/free_claude_code/runtime/provider_manager.py:440-474 | The end of a cleanup, successful or not, as specified. |
| Generations.ProviderRuntimeManager.CloseBegins | src/free_claude_code/runtime/provider_manager.py:288-295 | Closing starts by refusing leases and cancelling the refresh; a closed manager does nothing. |
| Generations.ProviderRuntimeManager.CloseRetires | src/free_claude_code/runtime/provider_manager.py:296-301 | The current generation is retired once and the retired ones are what close waits for. |
| Generations.ProviderRuntimeManager.DrainSeen | src/free_claude_code/runtime/provider_manager.py:303-305 | One awaited drained event was set; the others are still waited for. |
| Generations.ProviderRuntimeManager.CloseDrains | src/free_claude_code/runtime/provider_manager.py:303-311 | Once each awaited event was seen, cleanup is started for every generation waited for. |
| Generations.ProviderRuntimeManager.CloseCollects | src/free_claude_code/runtime/provider_manager.py:306-313 | The result is whether every one of them was closed. |
| Generations.ProviderRuntimeManager.CloseRetryEnds | src/free_claude_code/runtime/provider_manager.py:414-419 | A kept candidate's cleanup is tried once more and its failure remembered. |
| Generations.ProviderRuntimeManager.CloseAll | src/free_claude_code/runtime/provider_manager.py:288-316 | The loop of `close` starts the cleanup of every generation it waits for. |
| Generations.ProviderRuntimeManager.CloseEnds | src/free_claude_code/runtime/provider_manager.py:288-316 | `close` fails exactly when a generation or a candidate could not be cleaned. |
| VoiceRuns.NoWaitCycle | src/free_claude_code/messaging/voice.py:193-252 | In no reachable state do handoffs drain each other in a circle of any length. |
| VoiceRuns.SomeHandoffIsFree | src/free_claude_code/messaging/voice.py:283-303 | Whenever one handoff drains another, some drained handoff is running and drains nobody. |
| VoiceRuns.DrainsBeginLater | src/free_claude_code/messaging/voice.py:223-252 | Along a chain of drains the cancel calls began later and later. |
| VoiceRuns.ProtectionIsBalanced | src/free_claude_code/messaging/voice.py:354-366 | A claim is protected exactly as often as it has cancel calls in progress, so every exit restores the count. |
| VoiceRuns.KeysAreExact | src/free_claude_code/messaging/voice.py:89-123 | A live claim is reachable by its voice key, once bound its status key, and no other; a claim that left by none. |
| VoiceRuns.LeavesOnce | src/free_claude_code/messaging/voice.py:368-376 | At most one of completed, cancelled and discarded ever holds for a claim, for the rest of the run. |
| VoiceRuns.HandoffCompletesIffOwned | src/free_claude_code/messaging/voice.py:254-270 | A finished handoff completes exactly when nobody cancelled or discarded its claim. |
| VoiceRuns.StaleClaimsAreHarmless | src/free_claude_code/messaging/voice.py:338-342 | A claim that lost its entry changes nothing, and no claim touches the reservation of another, not even a newer one of the same message. |
| VoiceRuns.BulkCancelIsExact | src/free_claude_code/messaging/voice.py:213-252 | A bulk cancel takes exactly the live claims in scope that are neither its own nor protected. |
| VoiceRuns.DeletedMessages | src/free_claude_code/messaging/voice.py:322-336 | Which messages a cancellation deletes, by the key it was addressed to. |
| VoiceOperations.SingleCancelIsExact | src/free_claude_code/messaging/voice.py:193-211 | A single cancel takes the claim its key leads to unless it is its own or cancelling in turn: the claim leaves as cancelled, no key leads to it and exactly it is drained; otherwise nothing leaves and the call is over. |
| VoiceOperations.LeavesExactlyThen | src/free_claude_code/messaging/voice.py:368-376 | A claim leaves exactly by completing its handoff, by its owner's discard, or by a cancellation that may take it, and as that says. |
| VoiceOperations.EntriesMove | src/free_claude_code/messaging/voice.py:106-143 | When a claim is bound, when its handoff starts and when it is done; nothing else changes it. |
| VoiceOperations.OnlyReservationsMakeClaims | src/free_claude_code/messaging/voice.py:89-104 | Only a reservation under a free key makes a claim, live, unbound and with a number of its own. |
| VoiceOperations.AnswersAreTrue | src/free_claude_code/messaging/voice.py:106-191 | A bind says yes exactly if the claim is live and bound to that status afterwards, a handoff is started exactly if not rejected, and a discard says yes exactly if the claim leaves by it. |
| VoiceOperations.CallsMove | src/free_claude_code/messaging/voice.py:193-252 | A cancel call lasts until it finds nothing to take or has drained what it took, which it selects once. |
| Voice.PendingVoiceRegistry.Reserve | src/free_claude_code/messaging/voice.py:89-104 | A free key is given to a new claim; a taken one is left alone and refused. |
| Voice.PendingVoiceRegistry.BindStatus | src/free_claude_code/messaging/voice.py:106-123 | A status is bound once, to a live claim, under a key nobody else has; the answer says whether it is bound. |
| Voice.PendingVoiceRegistry.StartHandoff | src/free_claude_code/messaging/voice.py:125-143 | A handoff task is started at most once per claim, and only for a live, bound one. |
| Voice.PendingVoiceRegistry.Discard | src/free_claude_code/messaging/voice.py:181-187 | Only the owner's live entry is removed, as discarded. |
| Voice.PendingVoiceRegistry.CancelBegins | src/free_claude_code/messaging/voice.py:193-198 | A cancel call protects the claim it runs for. |
| Voice.PendingVoiceRegistry.CancelSelects | src/free_claude_code/messaging/voice.py:199-205 | A single cancel takes the entry under the key unless it is its own or protected. |
| Voice.PendingVoiceRegistry.CancelEnds | src/free_claude_code/messaging/voice.py:206-211 | After the drain the protection is undone. |
| Voice.PendingVoiceRegistry.CancelSelectsScope | src/free_claude_code/messaging/voice.py:223-252 | The removal loop takes the selected entries out with all their keys, each once. |
| Voice.PendingVoiceRegistry.CompleteIfOwned | src/free_claude_code/messaging/voice.py:264-270 | The entry is removed as completed exactly if it is still owned. |
| Voice.PendingVoiceRegistry.UnprotectClaim | src/free_claude_code/messaging/voice.py:359-366 | Unprotecting undoes one protection and drops the key at zero. |
| ExecutionProofs.FallbackHasOneWinner | src/free_claude_code/application/execution.py:279-375 | The body delivers exactly the winner's non-empty chunks up to its own end or the consumer's first close, and ends so, unless closing its stream raises a cancellation or exception group, which then is the end; all earlier candidates failed retryably before anything was delivered, later ones are never opened, at most one stream is open at a time and all are closed. Streams may answer the cancellation of a pull in any way. |
| ExecutionProofs.RaisingCloseStopsFallback | src/free_claude_code/application/execution.py:355-362 | Once a candidate is opened whose close raises such an exception, the body ends with it and no later candidate is opened, whatever the stream did. |
| ExecutionProofs.BodyHasOneWinner | src/free_claude_code/application/execution.py:279-375 | The same from any candidate on, which is the induction over the candidates. |
| ExecutionProofs.AttemptDelivers | src/free_claude_code/application/execution.py:282-364 | One candidate appends its own chunks only, and is left for the next exactly when it failed retryably, uncommitted, with a successor; after a pull that the deadline cancelled, exactly if that pull answered so. |
| ExecutionProofs.PullsRespectTheDeadline | src/free_claude_code/application/execution.py:279-375 | No upstream pull starts at or after the last resumption after a delivered chunk plus the timeout; empty chunks and fallbacks do not extend it. |
| ExecutionProofs.TimeoutMeansNoProgress | src/free_claude_code/application/execution.py:313-346 | A pull is cancelled exactly when the whole timeout has passed since the last delivered progress, and the timeout failure is raised only then or later. |
| ExecutionProofs.NoTimeoutAdvances | src/free_claude_code/application/execution.py:314-354 | After the timeout failure, which goes through the same clause as any other, only the close of the stream follows and the body ends with it, unless the close raises. |
| ExecutionProofs.DeadlineFallback | src/free_claude_code/application/execution.py:319-354 | A missed deadline is followed by another candidate if and only if the cancelled pull answers with a retryable execution failure, uncommitted, with a successor, and the close raises nothing; even then nothing more is delivered, and an opened candidate ends the body with the timeout failure. |
| ExecutionProofs.AnsweredCancellationFallsBack | src/free_claude_code/application/execution.py:319-354 | A stream that answers its cancellation so, and the next candidate opened after the deadline. |
| ExecutionProofs.NoPullAfterTheDeadline | src/free_claude_code/application/execution.py:313-332 | Once the deadline was missed no pull of any candidate starts, unless a late chunk was delivered and the consumer resumed. |
| ExecutionTimes.EveryActGoesOn | src/free_claude_code/application/execution.py:279-375 | Act by act: a pull is cancelled if and only if it would answer after the deadline, every answer is followed by what the loop does with it, at the time the script says, and a fallback's first pull comes when the stream before it is closed. |
| ExecutionProofs.PlayDelivers | src/free_claude_code/application/execution.py:313-346 | Playing one stream appends its non-empty chunks in order, up to its own end, the timeout or the consumer's first close, and moves the deadline with the consumer only; pulls that the deadline cancels may answer in any way. |
| Execution.ProviderExecutor.PullAll | src/free_claude_code/application/execution.py:313-346 | The inner loop does the acts of the specification, for every stream, whatever it does when it is cancelled, and every consumer. |
| Execution.ProviderExecutor.ProviderBody | src/free_claude_code/application/execution.py:279-375 | The candidate loop with its commit point and shared deadline does the acts of the specification. |
| StreamRecovery.InvisibleRetry | src/free_claude_code/providers/stream_recovery.py:42-119 | Delivered frames followed by held ones are the frames pushed since the last discard point; nothing is delivered before commit; an uncommitted buffer is counted exactly and under the cap. |
| StreamRecovery.HeldExactlyThen | src/free_claude_code/providers/stream_recovery.py:60-72 | After a push the buffer is uncommitted exactly if all held frames stay under the cap and less than the holdback has passed since the first of them; otherwise everything pushed is delivered. |
| StreamRecovery.HoldingClock | src/free_claude_code/providers/stream_recovery.py:60-72 | The holdback runs from the first held frame and nothing moves it while frames are held. |
| StreamRecovery.FlushAndDiscard | src/free_claude_code/providers/stream_recovery.py:74-88 | A flush commits and delivers everything held; a discard drops exactly what is held. |
| StreamRecovery.NoResetAfterCommit | src/free_claude_code/providers/stream_recovery.py:60-88 | After commit nothing is taken back, no early retry happens and every push is delivered at once. |
| StreamRecovery.FailureDecisions | src/free_claude_code/providers/stream_recovery.py:122-176 | Exactly when a failure is retried early, recovered in midstream or final; an early retry drops only unseen frames and, after generated output, leaves an attempt in reserve. |
| StreamRecovery.FlushAfterDecision | src/free_claude_code/providers/stream_recovery.py:117-120 | After a decision that is no early retry, the flush delivers everything still held. |
| StreamRecovery.RecoveryHoldbackBuffer.Push | src/free_claude_code/providers/stream_recovery.py:60-72 | A pushed frame is delivered, held or flushed with the others as specified. |
| StreamRecovery.RecoveryController.AdvanceFailure | src/free_claude_code/providers/stream_recovery.py:122-176 | The decision and the new buffer are those of the specification. |
| QueueRuns.QueueIsTheMap | src/free_claude_code/messaging/limiter.py:237-263 | In every reachable state the deque is duplicate-free and holds exactly the keys of the map. |
| QueueRuns.OnePlace | src/free_claude_code/messaging/limiter.py:61-155 | A future that is not done is in exactly one place: the batch waiting under its key, the active batch, or among those whose function raised an exception group. |
| QueueRuns.DoneIsFinal | src/free_claude_code/messaging/limiter.py:88-155 | A done future never changes. |
| QueueRuns.BatchIsSettled | src/free_claude_code/messaging/limiter.py:88-156 | When the worker's call ends or the worker is cancelled, an open future of the batch is done, except exactly if the function raised an exception group outside `Exception`. |
| QueueRuns.StrandedStays | src/free_claude_code/messaging/limiter.py:147-156 | Such a future stays open, through shutdown and all else, until its own caller cancels it. |
| QueueRuns.TakesTheLatest | src/free_claude_code/messaging/limiter.py:67-76 | The batch taken is ahead of all that wait, has the latest function admitted for its key and carries every open future of the key, stranded ones aside. |
| QueueRuns.RanksAreFirstNumbers | src/free_claude_code/messaging/limiter.py:249-263 | A batch's rank is the number of the call that created it, negated for the front, and never changes while it waits; a batch leaves the queue only by being taken or cleared. |
| QueueRuns.CallsAreInOrder | src/free_claude_code/messaging/limiter.py:249-263 | Batches appended on the right are run in the order of their first enqueueing and no function is called twice. |
| QueueRuns.NeverOlder | src/free_claude_code/messaging/limiter.py:249-255 | A result or error a future got comes from a call made for its key, never from a function older than its own. |
| QueueRuns.ShutdownSettles | src/free_claude_code/messaging/limiter.py:171-189 | After shutdown cleared the queue none is ever admitted, and a future is still open exactly if the function of its batch raised such a group while it was open and its caller has not cancelled it since. |
| QueueRuns.GroupOutlivesShutdown | src/free_claude_code/messaging/limiter.py:147-189 | A run in which a future is open after shutdown has cleared the queue. |
| QueueRuns.FloodWaitIsHonoured | src/free_claude_code/messaging/limiter.py:78-137 | After a flood-wait error no function is called before the time it asked for. |
| QueueOperations.EndingDecides | src/free_claude_code/messaging/limiter.py:88-156 | Section by section the outcome of every future: a call that returned resolves its batch and one that raised fails it, with the function called; cancellations and shutdown cancel; and no other future changes. |
| QueueOperations.CallsJoin | src/free_claude_code/messaging/limiter.py:237-263 | A call is admitted exactly if the queue is open and a worker runs; its futures join the batch of its key or make one at the end asked for, which has its function. |
| QueueOperations.OthersKeepTheQueue | src/free_claude_code/messaging/limiter.py:61-76 | A batch changes only when a call joins it and goes only when it is taken or cleared. |
| QueueOperations.WorkerIsExact | src/free_claude_code/messaging/limiter.py:51-169 | When the worker starts, takes the leftmost batch, calls it once, pauses for a flood wait, goes on and ends. |
| CompactingQueue.MessagingRateLimiter.EnqueueMulti | src/free_claude_code/messaging/limiter.py:237-263 | An admitted call joins or creates its batch as specified; it is refused exactly when closed or without a worker. |
| CompactingQueue.MessagingRateLimiter.StartTask | src/free_claude_code/messaging/limiter.py:51-59 | Starting is refused when closed and does nothing while a worker runs. |
| CompactingQueue.MessagingRateLimiter.TakeNext | src/free_claude_code/messaging/limiter.py:74-76 | The leftmost batch becomes the active one. |
| CompactingQueue.MessagingRateLimiter.CallEnded | src/free_claude_code/messaging/limiter.py:89-148 | The settling loops give every open future of the batch the outcome of the call, unless that raised a group, which ends the worker. |
| CompactingQueue.MessagingRateLimiter.CancelledInWorker | src/free_claude_code/messaging/limiter.py:149-156 | A cancelled worker cancels the open futures of its batch and stops. |
| CompactingQueue.MessagingRateLimiter.ClearQueue | src/free_claude_code/messaging/limiter.py:175-189 | The shutdown loops cancel exactly the queued and active futures that are open. |
| ResponseStreams.FindExecutionFailure | src/free_claude_code/core/failures.py:41-50 | The work-list search ends and finds the first canonical failure, left to right, in nested groups. |
| ResponseStreams.FindsTheFirst | src/free_claude_code/core/failures.py:41-50 | What is found is the first canonical failure among all the single exceptions, from left to right. |
| ResponseStreams.FailuresAreShown | src/free_claude_code/api/response_streams.py:299-326 | A group with a canonical failure is reported as that failure, and the terminal frame names it. |
| ResponseStreams.ReadsAnswerTheBody | src/free_claude_code/api/response_streams.py:293-308 | What each read answers, and exactly when it says that the stream is over. |
| ResponseStreams.MessagesNeverStrays | src/free_claude_code/api/response_streams.py:293-326 | For any reads and closes the Messages client gets a beginning of: the body's chunks in order, then one terminal frame exactly if the body failed. |
| ResponseStreams.MessagesIsComplete | src/free_claude_code/api/response_streams.py:293-326 | A client that reads to the end gets all of it. |
| ResponseStreams.StaysEnded | src/free_claude_code/api/response_streams.py:293-317 | After the terminal frame, the end or a close, every read says the stream is over. |
| ResponseStreams.ResponsesNeverStrays | src/free_claude_code/api/response_streams.py:293-326 | On the Responses wire, for any reads and closes, the client gets a beginning of: the body's chunks in order, each failure raised to the read that meets it, and no frame. |
| ResponseStreams.ResponsesIsComplete | src/free_claude_code/api/response_streams.py:293-326 | A client that reads on to the end gets all of it. |
| ResponseStreams.ResponsesRaises | src/free_claude_code/api/response_streams.py:319-326 | Of a body that ends with its failure that is its chunks and then the failure, once. |
| ResponseStreams.OpenedStreamShowsTheBody | src/free_claude_code/api/response_streams.py:216-252 | A stream is opened exactly on a first chunk and, read to the end, shows the whole body on either wire; otherwise the error becomes a response of its own. |
| ResponseStreams.PrefetchedStream.Anext | src/free_claude_code/api/response_streams.py:293-308 | One read answers and moves the stream as specified. |
| ResponseStreams.PrefetchedStream.Aclose | src/free_claude_code/api/response_streams.py:310-317 | The body is closed by the first close only. |
| ResponseLifetime.ReleasedExactlyOnce | src/free_claude_code/api/response_streams.py:63-117 | Body close at most once, release at most once and never before the close was attempted; once cleanup is over, the release ran exactly if one was bound and the run's one end of the close was normal or an ordinary exception. |
| ResponseLifetime.ReleaseFollowsClose | src/free_claude_code/api/response_streams.py:100-117 | A release starts only when the body's close is over. |
| ResponseLifetime.AbnormalCloseKeepsTheResource | src/free_claude_code/api/response_streams.py:100-117 | For a close cancelled from inside and for one that raises an exception group, a run in which the bound resource is never released. |
| ResponseLifetime.CallersSeeTheirOwnOutcome | src/free_claude_code/api/response_streams.py:85-140 | A caller leaves only after the cleanup: with the group the cleanup raised, if any; else with a cancellation exactly if it or the cleanup was cancelled; else with its own stream's outcome, the resource released. |
| ResponseLifetime.BoundOnce | src/free_claude_code/api/response_streams.py:63-69 | Only the first resource is bound, and none once cleanup was asked for. |
| ResponseLifetime.BindingBinds | src/free_claude_code/api/response_streams.py:63-69 | A resource is bound exactly by a first request before any close, and stays bound. |
| ResponseLifetime.CleanupGoesOn | src/free_claude_code/api/response_streams.py:75-117 | The cleanup is created by the first request, closes, releases if it may, and ends as the last of these did. |
| ResponseLifetime.WaitersKeepTheirOutcome | src/free_claude_code/api/response_streams.py:71-98 | A waiting caller has the outcome it came with, and counts as cancelled exactly if it was cancelled since. |
| ResponseLifetime.ManagedStreamingResponse.Bind | src/free_claude_code/api/response_streams.py:63-69 | A resource is accepted exactly if none is bound and no cleanup was created. |
| ResponseLifetime.ManagedStreamingResponse.CloseRequested | src/free_claude_code/api/response_streams.py:71-83 | The first request for closing creates the one cleanup task; every request waits for it. |
| ResponseLifetime.ManagedStreamingResponse.AfterBodyClosed | src/free_claude_code/api/response_streams.py:100-115 | After the body's close the bound resource is released if the close ended normally or in an ordinary exception; otherwise the task ends there. |
| ResponseLifetime.ManagedStreamingResponse.Leave | src/free_claude_code/api/response_streams.py:120-140 | A waiting caller leaves with what the cleanup raised, the cancellation it saw, or its own outcome. |
| ResponseLifetime.BindLifetime | src/free_claude_code/api/response_streams.py:153-174 | The resource goes to a managed response, or is released right there exactly once, for an unmanaged stream after its body's close was awaited, and what is raised is the release's failure before the close's before the type error. |
| ModelIds.PartitionOfJoin | src/free_claude_code/core/gateway_model_ids.py:30-51 | A joined id splits at its first slash into the parts it was joined from. |
| ModelIds.DecodeInverts | src/free_claude_code/core/gateway_model_ids.py:20-51 | A name decodes to a pair and a flag exactly if it is the id these are encoded as. |
| ModelIds.SplitRefInverts | src/free_claude_code/config/model_refs.py:25-43 | A string splits into exactly the well-formed pair whose reference it is. |
| ModelIds.UniqueKeepsOrder | src/free_claude_code/config/model_refs.py:46-71 | De-duplication keeps the order of first occurrence. |
| Routing.DirectNames | src/free_claude_code/application/routing.py:138-158 | A name routes directly exactly if it is the reference, gateway id or no-thinking id of a model of a supported provider, and only the last turns reasoning off. |
| Routing.AdvertisedIdsRouteBack | src/free_claude_code/application/routing.py:67-122 | Each of the three ids resolves to exactly its model, with reasoning forced off if and only if it is the no-thinking one. |
| Routing.OtherNamesAreMapped | src/free_claude_code/application/routing.py:160-188 | Any other name belongs to the first tier it mentions, of fable, opus, haiku and sonnet in this order, and resolves to that tier's model and preference, or to the defaults where there are none. |
| Routing.ResolvesToDistinctCandidates | src/free_claude_code/application/routing.py:110-136 | With validated settings every name resolves; its candidates are proper targets, pairwise distinct, and include every configured fallback. |
| Routing.FallbacksKeepTheirOrder | src/free_claude_code/application/routing.py:124-129 | The fallbacks are the configured ones in their order, without the primary. |
| Routing.PrefixAsProviderMisroutes | src/free_claude_code/application/routing.py:138-158 | With a provider named like the gateway prefix, one of its references is read as another provider's gateway id. |
| Catalog.ConfiguredRefsAreTheMentioned | src/free_claude_code/config/model_refs.py:46-71 | The configured references are exactly those the settings mention, each once, all valid. |
| Catalog.BuildClaudeModels | src/free_claude_code/api/model_catalog.py:127-161 | The loops build the first entry of each id among the variants and the Claude models, with first and last id. |
| Catalog.FirstOfEachInOrder | src/free_claude_code/api/model_catalog.py:264-271 | What is listed are the first entries of their ids, in their order. |
| Catalog.CollectInventory | src/free_claude_code/api/model_catalog.py:219-249 | The loop keeps the first source of each reference. |
| Catalog.FirstRefsInOrder | src/free_claude_code/api/model_catalog.py:219-249 | The inventory are the first sources of their references, in their order. |
| Catalog.BuildDirectModels | src/free_claude_code/api/model_catalog.py:164-216 | The loop lists one entry per inventory model, with first and last id. |
| Catalog.ClaudeListing | src/free_claude_code/api/model_catalog.py:264-296 | No id twice; besides the Claude models exactly the no-thinking id of every known model and the gateway id of each that may think. |
| Catalog.ClaudeIdsRouteBack | src/free_claude_code/api/model_catalog.py:127-161 | Every listed id made for a known model routes back to it, reasoning off exactly for the no-thinking id. |
| Catalog.DirectIdsRouteBack | src/free_claude_code/api/model_catalog.py:164-216 | One entry per known model; its id routes back to it, reasoning off exactly if the model cannot think. |
| Catalog.DirectIdsAreUnique | src/free_claude_code/api/model_catalog.py:164-249 | No id is in the direct list twice. |
| Catalog.DirectEntriesShow | src/free_claude_code/api/model_catalog.py:164-216 | What a direct entry shows in each view: id, name, whether it can think, and the idle timeout with its margin. |
| FailurePolicy.ClassifierAgreesWithRetry | src/free_claude_code/providers/failure_policy.py:164-348 | For every exception but a wrapper, the classified failure is retryable exactly when the admission predicate retries, if and only if it is not an SDK internal-server error without a retryable status, body status or text marker. |
| FailurePolicy.ClassificationAgreesWithAttempt | src/free_claude_code/providers/admission.py:159-167 | The same with the adapter's override, which the attempt asks of every error and the classifier of every one that is not canonical yet, for every override that answers nothing to a canonical failure. |
| FailurePolicy.RemarkingOverrideDisagrees | src/free_claude_code/providers/admission.py:159-167 | An override that answers to a canonical failure, with which an attempt retries what is classified as final. |
| FailurePolicy.ClassifierAgreesOnServerErrors | src/free_claude_code/providers/failure_policy.py:164-348 | With internal-server errors carrying 500 to 599 the two always agree. |
| FailurePolicy.StatusAboveRangeDisagrees | src/free_claude_code/providers/failure_policy.py:271-282 | An internal-server error with status 600 is classified as retryable but not retried. |
| FailurePolicy.UnderlyingProviderError | src/free_claude_code/providers/failure_policy.py:443-448 | Unwrapping ends, at the innermost error. |
| FailurePolicy.WrappersAreTransparent | src/free_claude_code/providers/failure_policy.py:62-96 | A wrapped failure classifies as its innermost error, and a wrapper itself is never retried. |
| FailurePolicy.ClassifyingTwiceIsOnce | src/free_claude_code/providers/failure_policy.py:62-96 | A canonical failure classifies as itself and the predicate reads its mark. |
| FailurePolicy.StreamPredicateDiffers | src/free_claude_code/providers/stream_recovery.py:179-209 | The exact inputs on which the stream predicate and the admission predicate differ. |
| FailurePolicy.StatusIsPreserved | src/free_claude_code/providers/failure_policy.py:249-330 | An error response keeps its status, unless it reports overload (529) or names another transient status in body or text. |
| FailurePolicy.KindsAreConsistent | src/free_claude_code/providers/failure_policy.py:249-348 | What a kind says about status and retry. |
| FailurePolicy.RetriedExactly | src/free_claude_code/providers/failure_policy.py:164-201 | An upstream exception is retried if and only if it is not one of three the request is to blame for and no response came, or the SDK calls it a rate limit, or its status, body status or text is transient; the statuses are 429 and 500 to 599. |
| FailurePolicy.RetryStatusIs | src/free_claude_code/providers/failure_policy.py:111-139 | Which status a retry is for. |
| FailurePolicy.KindsAreExact | src/free_claude_code/providers/failure_policy.py:249-348 | Which exceptions have which kind, both ways. |
| FailurePolicy.StatusesAreExact | src/free_claude_code/providers/failure_policy.py:249-330 | Under which status each response is reported. |

## Left out

- asyncio itself: locked sections are atomic; cancellation while queueing for a lock, and the fairness of conditions and semaphores, are not modelled. Shielded cleanup tasks run as steps of their own.
- In admission the terminal check before the lock and the locked gate section are one step.
- Liveness of a session that was told to retry and never comes back: a leader that corrected its probe with its budget spent, or a caller that drops its session after being told to retry, keeps the lead. Safety and takeover at the listed cancellation points are proved, not unconditional progress.
- Floats and the parsing of header, date and duration values: time is integer, one clock reading per section (two where the source takes two), parsed delays are inputs and jitter is any value in its range.
- In the executor a pull that ends exactly at the deadline counts as in time; a pull that answers its cancellation with a cancellation or a `TimeoutError` counts as letting it through.
- In admission an outcome is reported only on an attempt that is not closed, as all callers do: after a close without an outcome the source would still act on a report.
- A factory or commit that raises something that is no ordinary exception, and callbacks that raise in the middle of publishing a generation.
- `start_model_list_refresh` is taken as not called while a replacement is between cancelling the old refresh and publishing; src/free_claude_code/runtime/application.py:143-144 calls it at startup only.
- `discard` is taken as called from outside handoff callbacks, as its only caller does.
- The caching and publishing of the model catalog, provider adapters, model discovery, the message-tree manager and the session store.
- Messages and wording: failures are kind, status and retry mark; the adapter's override of the classifier is a parameter, assumed only to answer nothing to a canonical failure, as the one at src/free_claude_code/providers/nvidia_nim/client.py:140-154 does.
- Classes of SDK and HTTP exceptions beyond one tag each; the body status and text markers are inputs. Exceptions that end the process are not modelled.
- The executor's trace records and outbound redaction; tracing wrappers are the identity on streams.
- In the compacting queue a failing rate limiter, and retries inside `fire_and_forget`; the text of flood-wait errors is an input.
- The lower-casing of model names is an input; presentation fields of a model entry that no property needs are left out.
- References between objects: sessions, generations and voice entries are looked up by number in one registry where the source passes references.
