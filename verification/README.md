# Verification of Free Claude Code's protocols

Free Claude Code is a proxy that serves Claude-compatible requests from other providers. This project models the
parts of it whose correctness depends on which steps can interleave, and proves what they keep over all runs.

How it is laid out. A protocol that changes state between awaits has a `...Model` module: its state as a datatype, one
function per await-free region, a `Step` that runs one region of one task, and runs as lists of steps, so a statement
about every run is a statement about every interleaving. Beside it stand an invariant, the theorems (`...Safety`), and
a module with the mutable classes, each of whose methods is one await-free region proved to change the abstract state
exactly as the model's function says. Smaller state machines have model, theorems and class in one module.

- `AdmissionModel`, `AdmissionInvariant`, `AdmissionSafety`, `AdmissionRecovery`, `AdmissionEpisodes`,
  `AdmissionCalls`, `Admission`: admission to one provider and its coordinated recovery (circuit breaker with half-open
  probes), with the attempt budget and the concurrency slots.
- `Window`: the strict sliding window, against the whole history of acquisitions.
- `GenerationModel`, `GenerationInvariant`, `GenerationSafety`, `GenerationDiscipline`, `GenerationShutdown`,
  `Generations`: provider generations with leases, replacement, cleanup and shutdown.
- `VoiceModel`, `VoiceSafety`, `Voice`: the pending voice registry and cancellations that wait for one another.
- `DeliveryModel`, `DeliverySafety`, `Delivery`: the compacting delivery queue, against a plain list of waiting calls.
- `FallbackModel`, `Fallback`: one request over an ordered list of failing streams, against functions that say from the
  candidates' scripts alone who decides, what gets out, and whether and when the time runs out.
- `Holdback`: holding back the start of a stream so that it can be retried unseen.
- `ToolNames`: the reversible tool-name codec.
- `Supervisor`: the server supervisor, under all interleavings of threads.
- `Workflow`: stop and clear as boundaries for turns.
- `Routing`, `Catalog`: gateway model ids, routing, and the lists of advertised models.

A theorem that assumes an invariant `Inv` holds in every reachable state: `InitInv` proves it of the initial state where
it is not immediate, and `RunKeepsInv` over every run.

Assumptions about the environment: one task at a time drives a `ProviderExecution`; the clock does not go back and a
sleep does not end early; a condition wait may return at any time (every wake-up is allowed, needed or not); cleanups
run to their end; identities from `uuid4` and `asyncio` tasks are fresh; `start_model_list_refresh` is not called
during a `replace` (`src/free_claude_code/runtime/application.py:153-154`); `discard` and `handoff` of the voice
registry are called from outside handoff callbacks; digests of the tool-name codec are sixteen hexadecimal characters
and distinct for the attempts that can be needed; settings are validated and provider ids of the catalog contain no
slash, do not start with white space, and are none of `anthropic`, `claude-3-freecc-no-thinking`, `github_models`.

Where the code does not do what its documentation or a reader would expect, the code is modelled and the limit is proved:

- The window's comment promises at most `rate_limit` acquisitions in any interval of its length; for closed intervals
  `Window.ClosedIntervalOverflows` says exactly when that fails, for half-open ones it always holds.
- A queued function that fails with neither an `Exception` nor a cancellation strands the futures of its batch;
  `DeliverySafety.FuturesGetLostIff` says that nothing else does.
- A recovery whose leader finishes before its next attempt admits nobody ever again; in every other reachable state some
  run goes on to claim an attempt (`AdmissionRecovery.GoesOnUnlessStuck`), only that one step leads there
  (`AdmissionRecovery.OnlyFinishingGetsStuck`), and a run of eight steps does for every configuration that allows a retry
  (`AdmissionRecovery.StuckIffRetries`).
- A restart requested while the run loop is on its way out is accepted and need not be applied; any other accepted one
  is applied in every run without a stop, an abort or an unclean close (`Supervisor.AcceptedRestartIsAppliedIff`).
- Without the discipline on `start_model_list_refresh` a runtime can be cleaned while it is in use, from every state in
  which the discipline forbids the call (`GenerationDiscipline.DisciplineIsExact`).

## Model

| member | source | states |
|---|---|---|
| `AdmissionInvariant.RunKeepsInv` | src/free_claude_code/providers/admission.py:468-891 | every interleaving of regions keeps: probe permits current, sleeping leaders leading, terminal episodes empty, slots accounted for |
| `AdmissionSafety.AtMostOneLiveProbe` | src/free_claude_code/providers/admission.py:614-628 | two executions that hold live probe permits are the same one; it holds the permit in one place and leads the open episode |
| `AdmissionSafety.RunningProbeHasHolder` | src/free_claude_code/providers/admission.py:844-891 | the episode says a probe is out exactly if some execution holds its permit, so a probe is never lost |
| `AdmissionSafety.ProbePermitStays` | src/free_claude_code/providers/admission.py:525-628 | over any run in which its holder neither resolves nor abandons it, a probe permit stays held and current, whatever the others do |
| `AdmissionSafety.StaleResolutionChangesNothing` | src/free_claude_code/providers/admission.py:630-764 | resolving an attempt whose permit is not current leaves the episode as it is; a retryable failure at most adds its execution to the waiters, or fails it with the terminal error |
| `AdmissionSafety.ClaimDuringEpisodeIsProbe` | src/free_claude_code/providers/admission.py:483-523 | whoever claims an attempt while an episode is open is its leader, the episode is not terminal, and the attempt is a probe of that generation |
| `AdmissionSafety.NoClaimBeforeProbeResolves` | src/free_claude_code/providers/admission.py:483-523 | between two claims the earlier probe has been resolved or abandoned: until then no run leads to another claim by anybody |
| `AdmissionSafety.ClaimRefusedIffFailed` | src/free_claude_code/providers/admission.py:194-209 | a slot holder with a current permit fails to claim exactly if shared exhaustion failed it meanwhile |
| `AdmissionSafety.NothingStartsBefore` | src/free_claude_code/providers/admission.py:525-595 | as long as the clock is before ready_at (or terminal_until) no run starts any attempt, whoever is cancelled and whoever takes the lead |
| `AdmissionSafety.FailureBacksOff` | src/free_claude_code/providers/admission.py:723-738 | a retryable failure that opens or continues a recovery makes its execution leader and closes the provider for the whole retry delay |
| `AdmissionSafety.ProbeIssuedOnlyWhenReady` | src/free_claude_code/providers/admission.py:553-592 | a probe permit goes to the leader only, not before ready_at nor before a terminal window has passed |
| `AdmissionSafety.RetryDelayBounds` | src/free_claude_code/providers/admission.py:896-901 | the delay is at least the base delay and the server's Retry-After, at most max_delay plus jitter unless Retry-After is longer, and does not fall as attempts grow |
| `AdmissionSafety.BackoffDoubles` | src/free_claude_code/providers/admission.py:896-901 | before jitter the backoff is the base delay and doubles with every further attempt up to the maximum |
| `AdmissionSafety.VacantLeadIsTaken` | src/free_claude_code/providers/admission.py:546-557 | at a leaderless gate the next execution becomes leader, with a current probe permit if recovery is due and else asleep until it is |
| `AdmissionRecovery.GoesOnUnlessStuck` | src/free_claude_code/providers/admission.py:525-628 | in every reachable state, with or without an episode, some run leads to another claim, exactly unless an open episode without a probe out has a leader that is finished and idle |
| `AdmissionRecovery.FinishedLeaderBlocksEveryone` | src/free_claude_code/providers/admission.py:546-570 | once the leader is finished between two attempts this stays so, and no run of anybody ever starts an attempt again |
| `AdmissionRecovery.OnlyFinishingGetsStuck` | src/free_claude_code/providers/admission.py:178-192 | a reachable state gets there exactly by the owner's succeed, fail or abandon on the leader while no probe is out |
| `AdmissionRecovery.StuckIffRetries` | src/free_claude_code/providers/admission.py:723-742 | a run from the start gets there exactly if max_attempts allows a retry: one attempt fails retryably and its owner abandons |
| `AdmissionRecovery.WaitingIsRegistered` | src/free_claude_code/providers/admission.py:557-570 | in every reachable state, whoever is suspended in the wait for the present episode is among its waiters, or has failed if the episode is terminal |
| `AdmissionRecovery.ExhaustionTurnsTerminal` | src/free_claude_code/providers/admission.py:744-764 | the failure that spends the budget closes the provider to everybody for the whole delay, without leader or probe, and touches only the waiters |
| `AdmissionRecovery.ExhaustionIsShared` | src/free_claude_code/providers/admission.py:744-764 | whoever waits then, suspended or back from an attempt of its own, fails with the same error and in no later run starts another attempt |
| `AdmissionEpisodes.StateDiagram` | src/free_claude_code/providers/admission.py:525-764 | over all reachable states and events: a recovery begins exactly with a retryable failure, ends exactly when its probe is accepted, rejected or corrected without budget, turns terminal exactly by exhaustion and stays so, and is replaced exactly by who comes after the terminal window |
| `AdmissionEpisodes.SettledProbeAdmitsEverybody` | src/free_claude_code/providers/admission.py:630-682 | from the end of a recovery until the next retryable failure, in any run, everybody at the gate gets a normal permit that is current |
| `AdmissionEpisodes.ProbeIsOutIff` | src/free_claude_code/providers/admission.py:546-628 | the probe is out exactly from the gate that issues it, or the waking leader, until its attempt is resolved or its permit given up |
| `AdmissionEpisodes.CorrectedProbeGoesAgain` | src/free_claude_code/providers/admission.py:654-667 | a probe corrected with budget left keeps the lead: closed and opened again, it is given the next probe at once |
| `AdmissionEpisodes.GivenUpProbePassesOn` | src/free_claude_code/providers/admission.py:694-708 | after a probe permit is given up or its closed attempt abandoned, the next at the gate gets a probe of the same recovery at once |
| `AdmissionEpisodes.ResolutionDecides` | src/free_claude_code/providers/admission.py:280-344 | accept, correct and fail resolve the attempt; a failed or corrected execution stays active exactly with budget left, a retryable error and no terminal recovery, and else fails, with its own error or, if only the recovery is terminal, the recovery's |
| `AdmissionCalls.CallEndsIff` | src/free_claude_code/providers/admission.py:468-595 | a pending open_attempt ends exactly by its claim, by finding its execution failed, at a terminal gate, or by cancellation or refusal, and goes on in every other step of its own |
| `AdmissionCalls.StalePermitTriesAgain` | src/free_claude_code/providers/admission.py:483-523 | a call that gives up its permit tries again exactly if the permit had gone stale, and not if it was cancelled or its execution has failed |
| `AdmissionCalls.BackAtTheLock` | src/free_claude_code/providers/admission.py:483-523 | such a call is back at the lock at once, unless its execution has failed |
| `AdmissionCalls.CancelledWaitIsForgotten` | src/free_claude_code/providers/admission.py:560-570 | after a cancelled wait the exhaustion of that recovery does not touch the execution |
| `AdmissionCalls.LastErrorIsTheProbes` | src/free_claude_code/providers/admission.py:723-756 | a recovery's last error is that of the failure it began with or of its latest failed probe, and no other step changes it |
| `AdmissionSafety.TerminalEpisodeIsEmpty` | src/free_claude_code/providers/admission.py:756-762 | in every reachable terminal episode there is no leader, no waiter and no probe, and nobody sleeps or holds a probe in it |
| `AdmissionSafety.FinishedForever` | src/free_claude_code/providers/admission.py:178-224 | over any run a finished execution keeps its state and its error and never starts another attempt |
| `AdmissionSafety.GenerationsIncrease` | src/free_claude_code/providers/admission.py:818-833 | over any run the episode present later is the same one or has a generation never used before |
| `AdmissionSafety.OwnProbeMetOnlyAfterCancelledClose` | src/free_claude_code/providers/admission.py:549-552 | a leader meets its own running probe at the gate only if the abandonment its cancelled close spawned has still to run |
| `AdmissionSafety.SlotConservation` | src/free_claude_code/providers/admission.py:486-523 | in every reachable state free permits, slots acquired but not claimed, and unclosed attempts add up to max_concurrency |
| `AdmissionSafety.OrdinalsCountUp` | src/free_claude_code/providers/admission.py:194-209 | over any run the attempts an execution claims are numbered on from its count without gap, up to max_attempts |
| `Admission.ProviderExecution.Fail` | src/free_claude_code/providers/admission.py:183-187 | an active execution fails with the error, a finished one keeps its outcome |
| `Admission.ProviderAttempt.Accept` | src/free_claude_code/providers/admission.py:280-285 | an unresolved attempt closes the episode it probes and is resolved; later calls do nothing |
| `Admission.ProviderAttempt.Correct` | src/free_claude_code/providers/admission.py:287-300 | retry exactly if the attempt was unresolved and the budget allows it; the whole new state is the model's CorrectAttempt |
| `Admission.ProviderAttempt.Fail` | src/free_claude_code/providers/admission.py:302-344 | the decision tells whether the failure was retryable and whether a retry is allowed; the whole new state is the model's FailAttempt |
| `Admission.ProviderAttempt.BeginClose` | src/free_claude_code/providers/admission.py:346-364 | a resolved attempt gives its slot back at once, an unresolved one first spawns its abandonment; a second close does nothing |
| `Admission.ProviderAttempt.FinishClose` | src/free_claude_code/providers/admission.py:361-364 | after the abandonment, or its cancellation, the claim and the slot are given back |
| `Admission.ProviderAdmissionController.StartExecution` | src/free_claude_code/providers/admission.py:456-466 | adds one active execution without attempts and changes nothing else |
| `Admission.ProviderAdmissionController.OpenAttempt` | src/free_claude_code/providers/admission.py:476-481 | raises, changing nothing, exactly if the execution is terminal, out of budget or has an attempt already |
| `Admission.ProviderAdmissionController.LoopTop` | src/free_claude_code/providers/admission.py:526-528 | a failed execution raises, any other goes on to the lock |
| `Admission.ProviderAdmissionController.EnterGate` | src/free_claude_code/providers/admission.py:531-570 | the locked region of the gate: a normal permit, the shared terminal error, leadership with or without a due probe, or a place among the waiters |
| `Admission.ProviderAdmissionController.LeaderWakes` | src/free_claude_code/providers/admission.py:582-592 | a woken leader gets its permit exactly if its episode is still its own, open and without a probe |
| `Admission.ProviderAdmissionController.AbandonWaitingLeader` | src/free_claude_code/providers/admission.py:876-891 | a leader cancelled in its sleep leaves the lead vacant, without touching ready_at, if it is still its own |
| `Admission.ProviderAdmissionController.AdmitRate` | src/free_claude_code/providers/admission.py:488-493 | the admission is recorded exactly if the permit is still current |
| `Admission.ProviderAdmissionController.ClaimAttempt` | src/free_claude_code/providers/admission.py:494-516 | an attempt is claimed exactly if the permit is current and the budget allows; otherwise the slot is given back and the permit given up |
| `Admission.ProviderAdmissionController.GiveUpPermit` | src/free_claude_code/providers/admission.py:860-874 | a permit that is still current leaves the episode leaderless and due at once; the loop goes round or the error is raised |
| `Admission.ProviderAdmissionController.CancelWaiting` | src/free_claude_code/providers/admission.py:560-569 | a cancelled waiter leaves the waiters of the episode it joined, if that is still the one |
| `Admission.ProviderAdmissionController.AttemptFailed` | src/free_claude_code/providers/admission.py:710-764 | the locked region of a retryable failure: lead, keep leading, wait, fail with the terminal error, or exhaust the recovery for all |
| `Admission.ProviderAdmissionController.ExhaustEpisode` | src/free_claude_code/providers/admission.py:756-764 | the episode becomes terminal and every waiter that is active fails with the error, by a loop over the waiters |
| `Admission.ProviderAdmissionController.RunOrphan` | src/free_claude_code/providers/admission.py:694-708 | the spawned abandonment of a closed attempt frees the probe it was for, and only that |
| `Window.TurnsKeepInv` | src/free_claude_code/core/rate_limit.py:43-65 | over any sequence of turns the acquisition limit places later is at least one window later, and the deque is a suffix of the history |
| `Window.AtMostLimitPerWindow` | src/free_claude_code/core/rate_limit.py:10-13 | over any run every half-open interval of one window's length, open at its start or at its end, holds at most rate_limit acquisitions |
| `Window.PrunedDequeSuffices` | src/free_claude_code/core/rate_limit.py:50-65 | by the whole history: a turn waits exactly if the window that ends now has rate_limit acquisitions, is refused exactly if there is room and its condition fails, and else records its own later time |
| `Window.WaitIsExact` | src/free_claude_code/core/rate_limit.py:59-60 | with no other acquisition, a later turn still waits exactly if the announced delay has not passed |
| `Window.UnrecordedTurnLeavesNoTrace` | src/free_claude_code/core/rate_limit.py:53-60 | any run after a refused acquire_if, or after a turn that must wait, records what it would have recorded without that turn |
| `Window.ClosedIntervalOverflows` | src/free_claude_code/core/rate_limit.py:10-13 | the promise for ANY interval fails for a closed one exactly if acquisitions rate_limit places apart sit on its two ends |
| `Window.ClosedIntervalCounterexample` | src/free_claude_code/core/rate_limit.py:10-13 | and a run in which that happens |
| `Window.StrictSlidingWindowLimiter.AcquireTurn` | src/free_claude_code/core/rate_limit.py:44-65 | one turn under the lock prunes, decides and records as the model's After and Decide say |
| `GenerationInvariant.RunKeepsInv` | src/free_claude_code/runtime/provider_manager.py:135-486 | every interleaving of the manager's regions keeps hold counts, the retired map, cleanup tasks and the phases of replace and close consistent |
| `GenerationSafety.HoldCountIsExact` | src/free_claude_code/runtime/provider_manager.py:86-147 | in every reachable state active_leases is the number of unreleased leases plus running refreshes, drained is set exactly at zero, a closed generation has none |
| `GenerationSafety.NeverCleanedWhileHeld` | src/free_claude_code/runtime/provider_manager.py:433-486 | while a cleanup runs or has succeeded, all leases of its generation are released, no refresh runs on it, and it is not current unless the manager closes |
| `GenerationSafety.CleanupsNeverOverlap` | src/free_claude_code/runtime/provider_manager.py:443-450 | two cleanups of one generation that have not failed are the same one: they never overlap and none follows a success |
| `GenerationSafety.ClosedIffCleaned` | src/free_claude_code/runtime/provider_manager.py:472-486 | a generation is closed exactly if one of its cleanups succeeded |
| `GenerationSafety.ManagerIsConsistent` | src/free_claude_code/runtime/provider_manager.py:241-328 | in every reachable state the committed settings are the current generation's, the retired map is exactly the retired unclosed generations, ids are below the next id |
| `GenerationSafety.OnlyPublicationReplaces` | src/free_claude_code/runtime/provider_manager.py:256-291 | only a successful commit changes current, next id and committed settings, and it changes them together; a failed factory or commit changes nothing at all, but for the candidate of a failed commit, which waits for cleanup |
| `GenerationSafety.LastReleaseStartsCleanup` | src/free_claude_code/runtime/provider_manager.py:330-338 | the last hold of a retired generation starts its cleanup, unless the manager closes |
| `GenerationSafety.AcquireIff` | src/free_claude_code/runtime/provider_manager.py:135-149 | acquire() hands out a lease that holds the current generation exactly until close() has the lock |
| `GenerationSafety.RefreshStartsIff` | src/free_claude_code/runtime/provider_manager.py:190-199 | start_model_list_refresh starts a refresh of the current generation exactly if none is under way, until shutdown |
| `GenerationSafety.ReleasedForGood` | src/free_claude_code/runtime/provider_manager.py:86-90 | over any run a released lease stays released, and releasing it again changes nothing: each lease gives its hold back once |
| `GenerationSafety.SuccessfulCloseIsComplete` | src/free_claude_code/runtime/provider_manager.py:300-328 | after a close that succeeded every generation is closed, every lease released, nothing retired or unpublished is left, no cleanup runs |
| `GenerationShutdown.CloseSucceedsIff` | src/free_claude_code/runtime/provider_manager.py:300-328 | from the events of the run: a close that comes to its end succeeds exactly if every generation has had a cleanup that succeeded, before or during it, and none of its retries of unpublished runtimes failed |
| `GenerationShutdown.ShutdownCanSucceed` | src/free_claude_code/runtime/provider_manager.py:300-328 | from every reachable state, whatever is held, running or under way, some run ends in a close that succeeds |
| `GenerationShutdown.UnpublishedIff` | src/free_claude_code/runtime/provider_manager.py:411-431 | a runtime that was never published is remembered exactly from its failed commit until a cleanup of it succeeds |
| `GenerationShutdown.ReplaceRetriesUnpublished` | src/free_claude_code/runtime/provider_manager.py:253-256 | a replacement comes to its commit only after it has retried the cleanup of every runtime unpublished by then |
| `GenerationShutdown.ListRefreshHolds` | src/free_claude_code/runtime/provider_manager.py:201-207 | an explicit refresh holds the current generation while it runs |
| `GenerationSafety.ShutdownOnlyDrains` | src/free_claude_code/runtime/provider_manager.py:305-317 | once closing, no step adds a hold, so what close() saw drained stays drained |
| `GenerationSafety.NoGenerationForgotten` | src/free_claude_code/runtime/provider_manager.py:330-338 | a retired, unheld, unclosed generation is in the retired map and is being cleaned or has a failed cleanup that shutdown retries |
| `GenerationDiscipline.DisciplineIsExact` | src/free_claude_code/runtime/provider_manager.py:190-199 | in every state a call of start_model_list_refresh outside a replace is safe in every later run, and one inside it, whatever is held and wherever the replace stands, is followed by some run that cleans a runtime in use |
| `GenerationDiscipline.UndisciplinedStateIsReachable` | src/free_claude_code/runtime/provider_manager.py:249-254 | such states are reachable |
| `Generations.ProviderRuntimeManager.Acquire` | src/free_claude_code/runtime/provider_manager.py:135-147 | no lease while closing or closed; else one on the current generation, counted |
| `Generations.ProviderRuntimeManager.ReleaseLease` | src/free_claude_code/runtime/provider_manager.py:86-90 | marks the lease and gives back its hold, once |
| `Generations.ProviderRuntimeManager.ReleaseGeneration` | src/free_claude_code/runtime/provider_manager.py:330-338 | one hold less; the last one sets drained and closes a retired generation |
| `Generations.ProviderRuntimeManager.CloseGeneration` | src/free_claude_code/runtime/provider_manager.py:433-450 | a cleanup task is created exactly if the generation is unclosed, unheld and has none |
| `Generations.ProviderRuntimeManager.CleanupSucceeded` | src/free_claude_code/runtime/provider_manager.py:472-486 | the generation is closed and leaves the retired map |
| `Generations.ProviderRuntimeManager.CleanupFailed` | src/free_claude_code/runtime/provider_manager.py:461-486 | the generation forgets its cleanup task, so that a later close retries |
| `Generations.ProviderRuntimeManager.CommitReplacement` | src/free_claude_code/runtime/provider_manager.py:254-298 | all or nothing: published exactly if factory and commit succeed |
| `Generations.ProviderRuntimeManager.PublishGeneration` | src/free_claude_code/runtime/provider_manager.py:273-291 | the candidate becomes current under the next id, the previous generation is retired |
| `Generations.ProviderRuntimeManager.RetireCurrent` | src/free_claude_code/runtime/provider_manager.py:305-313 | the locked region of close() |
| `VoiceSafety.RunKeepsInv` | src/free_claude_code/messaging/voice.py:89-376 | every interleaving keeps the two-key table exact, protection counts exact, and drains ordered |
| `VoiceSafety.WaitsForIsAcyclic` | src/free_claude_code/messaging/voice.py:193-252 | in every run, a chain of handoffs each running a cancellation that drains the next never returns to its start |
| `VoiceSafety.SomeDrainIsUnblocked` | src/free_claude_code/messaging/voice.py:292-302 | while drains are in progress one of them waits only for handoffs that run no drain |
| `VoiceSafety.CancellationTakesExactly` | src/free_claude_code/messaging/voice.py:223-252 | a cancellation releases exactly the owned claims it names by either key, but for its own and those with cancellations in progress, and drains exactly their running handoffs |
| `VoiceSafety.CancellerIsProtected` | src/free_claude_code/messaging/voice.py:344-366 | while a handoff runs a cancellation its claim is released only by its own end or a discard |
| `VoiceSafety.TableIsSetOfEntries` | src/free_claude_code/messaging/voice.py:368-376 | in every run the keys that lead to a claim are exactly its voice id and bound status id if it is owned, and none otherwise |
| `VoiceSafety.ReleasedAtMostOnce` | src/free_claude_code/messaging/voice.py:181-252 | in every run a claim is released at most once, and is owned exactly until then |
| `VoiceSafety.OutcomeTellsWhoReleased` | src/free_claude_code/messaging/voice.py:145-179 | handoff() raises if its caller is cancelled or the callback fails fatally; else it says CANCELLED exactly if somebody else had released the claim, and COMPLETED or the callback's exception exactly if it released it itself |
| `VoiceSafety.CancelledHandoffSaysSo` | src/free_claude_code/messaging/voice.py:151-179 | in any run, after a cancellation took the claim the handoff ends as CANCELLED, whatever the callback does short of a fatal error |
| `VoiceSafety.CancelledCallerRaises` | src/free_claude_code/messaging/voice.py:153-165 | in any run, a handoff whose caller has been cancelled raises |
| `VoiceSafety.ReleasedIff` | src/free_claude_code/messaging/voice.py:181-252 | an owned claim is released exactly by the end of its handoff, by its discard, or by a cancellation that names it while it runs none itself |
| `VoiceSafety.ReservedIff` | src/free_claude_code/messaging/voice.py:89-104 | in any run a note is reserved exactly if no live claim goes by its key, as note or as status |
| `VoiceSafety.BoundIff` | src/free_claude_code/messaging/voice.py:106-123 | in any run a status is bound exactly to a live claim that has it already, or has none while no other live claim goes by its key |
| `VoiceSafety.HandedOffIff` | src/free_claude_code/messaging/voice.py:131-143 | in any run a handoff starts exactly for a live claim with a status and no handoff so far |
| `VoiceSafety.OutcomeIsFinal` | src/free_claude_code/messaging/voice.py:254-269 | no step changes a settled handoff |
| `VoiceSafety.CancelledReplyIsDeleted` | src/free_claude_code/messaging/voice.py:321-336 | cancelling by the voice note reports all the entry's messages for deletion, cancelling by its status message only that one |
| `Voice.PendingVoice.Result` | src/free_claude_code/messaging/voice.py:322-336 | the reported scope, ids and messages to delete of a cancelled entry |
| `Voice.PendingVoiceRegistry.Reserve` | src/free_claude_code/messaging/voice.py:89-104 | a claim is reserved exactly if its key is free |
| `Voice.PendingVoiceRegistry.BindStatus` | src/free_claude_code/messaging/voice.py:106-123 | the status key is added unless the claim is gone, another status is bound or the key is foreign |
| `Voice.PendingVoiceRegistry.BeginHandoff` | src/free_claude_code/messaging/voice.py:131-143 | accepted exactly if the claim is owned, has a status and no handoff yet |
| `Voice.PendingVoiceRegistry.FinishOwnership` | src/free_claude_code/messaging/voice.py:254-269 | releases the claim if it is still owned and settles the outcome |
| `Voice.PendingVoiceRegistry.Discard` | src/free_claude_code/messaging/voice.py:181-191 | releases an owned claim and drains its running handoff |
| `Voice.PendingVoiceRegistry.ProtectClaim` | src/free_claude_code/messaging/voice.py:354-357 | one protection more for the claim in whose handoff the cancellation runs |
| `Voice.PendingVoiceRegistry.UnprotectClaim` | src/free_claude_code/messaging/voice.py:359-366 | one less, and the entry goes with the last |
| `Voice.PendingVoiceRegistry.Remove` | src/free_claude_code/messaging/voice.py:368-376 | both keys are popped, each only if it leads to the entry |
| `Voice.PendingVoiceRegistry.TakeOne` | src/free_claude_code/messaging/voice.py:199-205 | the locked region of cancel(): one entry by either id, unless excluded |
| `Voice.PendingVoiceRegistry.TakeMatching` | src/free_claude_code/messaging/voice.py:230-246 | the locked region of cancel_scope and cancel_all, by loops over keys and entries |
| `Voice.PendingVoiceRegistry.Collect` | src/free_claude_code/messaging/voice.py:231-238 | the entries found under some matching key, once each |
| `DeliverySafety.RunRefines` | src/free_claude_code/messaging/limiter.py:61-263 | every run of the deque and map is a run of a plain list of waiting calls without compaction |
| `DeliverySafety.QueueIsTheWaitingCalls` | src/free_claude_code/messaging/limiter.py:237-263 | in every run the deque's keys are distinct and the map's, in order of their first waiting call; each has the last function called under it and the futures of all its calls |
| `DeliverySafety.PopServesTheFirstCall` | src/free_claude_code/messaging/limiter.py:66-76 | the worker serves the first waiting call's key: its last function, for all the calls under it, which leave the list together |
| `DeliverySafety.EachFutureInOnePlace` | src/free_claude_code/messaging/limiter.py:74-76 | an unsettled future that is not lost is in the active batch or under exactly one key, never both |
| `DeliverySafety.OutcomeReachesTheBatch` | src/free_claude_code/messaging/limiter.py:88-111 | the end of a function gives every waiting future of the batch its value, its error or a cancellation, and touches no other future |
| `DeliverySafety.SettledIff` | src/free_claude_code/messaging/limiter.py:88-189 | in any run a future is settled exactly when its sender gives up, its batch ends or is cancelled, or shutdown drains it, and then stays as it is |
| `DeliverySafety.FuturesGetLostIff` | src/free_claude_code/messaging/limiter.py:107-148 | a future comes to be tracked by nobody exactly when a function fails fatally (neither Exception nor cancellation) with futures of its batch waiting |
| `DeliverySafety.OnlyLostRemainUnsettled` | src/free_claude_code/messaging/limiter.py:171-189 | after shutdown has drained the queue the unsettled futures are exactly the lost ones |
| `DeliverySafety.ShutdownSettlesEverything` | src/free_claude_code/messaging/limiter.py:171-189 | in a run without such a failure, shutdown leaves no future unsettled |
| `DeliverySafety.FatalFailureStrandsItsSenders` | src/free_claude_code/messaging/limiter.py:147-148 | from every reachable state in which a function runs, a fatal failure leaves the waiting senders of its batch waiting even after shutdown |
| `DeliverySafety.SendersWaitOnCalls` | src/free_claude_code/messaging/limiter.py:88-90 | and a run that leads to such a state |
| `DeliverySafety.NothingRunsDuringPause` | src/free_claude_code/messaging/limiter.py:78-85 | in any run no function starts before the pause asked for last, by the function that raised it, is over |
| `DeliverySafety.FloodWaitIsKept` | src/free_claude_code/messaging/limiter.py:113-137 | after a function asks for a pause of d at t, in any run without another such request, none starts before t + d |
| `DeliverySafety.StartsWhenPauseIsOver` | src/free_claude_code/messaging/limiter.py:74-88 | and what has been taken may start as soon as the pause asked for last is over |
| `DeliverySafety.AcceptedIff` | src/free_claude_code/messaging/limiter.py:237-283 | in a run without cancelled workers and fatal failures a call is accepted and queued exactly between the first start and shutdown, and else cancelled at once |
| `DeliverySafety.WorkerRunsIff` | src/free_claude_code/messaging/limiter.py:51-170 | a worker stops exactly by leaving after shutdown, by a fatal failure, by being cancelled outside a function, or if a function ends cancelled when the worker was meant; it can be started again until shutdown |
| `Delivery.MessagingRateLimiter.Start` | src/free_claude_code/messaging/limiter.py:51-59 | starts a worker unless closed or one runs |
| `Delivery.MessagingRateLimiter.Enqueue` | src/free_claude_code/messaging/limiter.py:228-263 | one call with its future: accepted exactly if open with a running worker, else its future is cancelled; same key: last function, futures in order; new key: at the end or the front |
| `Delivery.MessagingRateLimiter.Pop` | src/free_claude_code/messaging/limiter.py:74-85 | takes the first key's work and keeps it until the pause is over |
| `Delivery.MessagingRateLimiter.EndCall` | src/free_claude_code/messaging/limiter.py:89-148 | each way a function can end: outcome for the batch, pause, worker goes on or stops |
| `Delivery.MessagingRateLimiter.SettleAll` | src/free_claude_code/messaging/limiter.py:91-93 | a loop that settles the futures that are not done |
| `Delivery.MessagingRateLimiter.CancelWorker` | src/free_claude_code/messaging/limiter.py:149-156 | a worker cancelled while it waits cancels its batch |
| `Delivery.MessagingRateLimiter.DrainShutdown` | src/free_claude_code/messaging/limiter.py:175-188 | queued and active futures are cancelled, the queue is empty |
| `Fallback.ProviderExecutor.StreamCandidates` | src/free_claude_code/application/execution.py:371-480 | for any candidates, timings and consumer: it times out exactly if, by sums over the scripts, some wait up to the deciding candidate's end is too long; else it ends as the deciding candidate does, or with the consumer leaving it; the chunks that get out are those of the last candidate tried, only the deciding candidate is ever selected, no stream is left open |
| `Fallback.ProviderExecutor.TryCandidate` | src/free_claude_code/application/execution.py:374-459 | one round ends as TryOutcome says of its script, start and deadline, with the chunks TakenBy gives; a stream that was opened is closed whatever happens |
| `Fallback.ProviderExecutor.ReadStream` | src/free_claude_code/application/execution.py:388-437 | the inner loop stops where the script, the deadline or the consumer makes it, with the outcome and the chunks of that point, and the clock after a full reading |
| `Fallback.ProviderExecutor.TakeChunk` | src/free_claude_code/application/execution.py:422-437 | the first chunk selects its candidate; a chunk is yielded at its time and only its taking moves the deadline, an empty one does neither |
| `Fallback.ProviderExecutor.CloseStream` | src/free_claude_code/application/execution.py:438-459 | one close, which expires exactly if it takes time, is late, and no exception is under way |
| `FallbackModel.ReadingTimesOutIff` | src/free_claude_code/application/execution.py:388-437 | reading runs out of time exactly if the delays since the last text, or since the opening, up to some answer reach the timeout, or what was left of it, while the consumer is there; else it ends as the script does or with the consumer leaving |
| `FallbackModel.RequestTimesOutIff` | src/free_claude_code/application/execution.py:373-459 | a request runs out of time exactly if, in its turn, the deciding candidate or one before it does, in reading or in closing, after the sums of the times of those before it |
| `FallbackModel.TextsUntilStop` | src/free_claude_code/application/execution.py:388-437 | what gets out are the texts before the first answer for which the consumer is gone or waits too long, or that is no chunk |
| `FallbackModel.TextsGetOutInTime` | src/free_claude_code/application/execution.py:419-437 | each text is read and taken at the sum of all times before it |
| `FallbackModel.OutcomeInTime` | src/free_claude_code/application/execution.py:388-480 | a round that does not run out of time ends as its candidate does, unless the consumer leaves first |
| `FallbackModel.TakenIsOutput` | src/free_claude_code/application/execution.py:419-437 | what gets out is a first part of the candidate's non-empty chunks: all of them if it ends in time, as many as the consumer wanted if it leaves |
| `FallbackModel.FailedTriesTake` | src/free_claude_code/application/execution.py:373-437 | after any number of early failures the clock has gone on by the sum of their times, and the deadline is still that of the start |
| `FallbackModel.FailsEarlyIff` | src/free_claude_code/application/execution.py:380-471 | another candidate may follow exactly after one that refuses, or whose stream fails before its first text |
| `FallbackModel.EndsWithFirstOther` | src/free_claude_code/application/execution.py:395-418 | the first answer that is no chunk decides how a stream ends, and one without such an answer never does |
| `Fallback.TotalsMean` | src/free_claude_code/application/execution.py:388-471 | what the executor's invariant says of its log event by event: every chunk was read before the deadline, which depends on when the last one was taken only, every event fits its candidate, and no candidate but the deciding one is selected or yields |
| `FallbackModel.WinnerIsFirst` | src/free_claude_code/application/execution.py:461-471 | every candidate before the deciding one failed before it produced anything; if that one did too it is the last |
| `FallbackModel.OneStreamAtATime` | src/free_claude_code/application/execution.py:373-460 | a stream has been closed before the next candidate is tried, and candidates are tried in order |
| `FallbackModel.ClosedOnce` | src/free_claude_code/application/execution.py:438-459 | no stream is closed twice |
| `FallbackModel.NothingTriedAfterCommit` | src/free_claude_code/application/execution.py:422-471 | after a candidate is selected or has produced a chunk no other is tried |
| `Holdback.NothingIsLostOrReordered` | src/free_claude_code/providers/stream_recovery.py:54-81 | over any lifecycle what was let out followed by what is held back is what was pushed since the stream last started over; what is held back stays below 65536 bytes |
| `Holdback.CommitIsPermanent` | src/free_claude_code/providers/stream_recovery.py:68-76 | once committed, committed after any further actions |
| `Holdback.CommitsIff` | src/free_claude_code/providers/stream_recovery.py:54-66 | a stream commits exactly when what was pushed since it started over reaches the cap or its first event has been held for the holdback time |
| `Holdback.DecisionIff` | src/free_claude_code/providers/stream_recovery.py:116-164 | from what happened before: an early retry exactly for a retryable failure of an opened, unseen stream with nothing to salvage and attempts to spare, else recovery exactly with output and an attempt or a complete tool call, else the final error |
| `Holdback.EarlyRetryIsUnseen` | src/free_claude_code/providers/stream_recovery.py:130-145 | whenever an early retry is chosen nothing has been let out before |
| `Holdback.NoEarlyRetryAfterRelease` | src/free_claude_code/providers/stream_recovery.py:130-145 | after anything has been let out no later failure is retried early |
| `Holdback.LastAttemptIsForRecovery` | src/free_claude_code/providers/stream_recovery.py:127-157 | with output generated, a row of early retries stops before the last attempt, and the failure that ends it is recovered from midstream |
| `Holdback.RecoveryHoldbackBuffer.Push` | src/free_claude_code/providers/stream_recovery.py:54-66 | what is let out and held back after a push |
| `Holdback.RecoveryHoldbackBuffer.Flush` | src/free_claude_code/providers/stream_recovery.py:68-76 | the held back events, once |
| `Holdback.RecoveryController.AdvanceFailure` | src/free_claude_code/providers/stream_recovery.py:116-164 | the decision, and a buffer of its own for an early retry |
| `Holdback.RecoveryController.FlushUncommitted` | src/free_claude_code/providers/stream_recovery.py:111-114 | flushes exactly for an uncommitted decision that had events buffered |
| `ToolNames.RoundTrip` | src/free_claude_code/core/openai_tool_names.py:58-64 | every name of the set decodes from its wire name, which is 1 to 64 portable characters; portable names are unchanged |
| `ToolNames.RoundTripIff` | src/free_claude_code/core/openai_tool_names.py:58-64 | any string at all survives encode and decode exactly unless it is an alias and not a name of the set |
| `ToolNames.EncodeIsInjective` | src/free_claude_code/core/openai_tool_names.py:58-60 | no two names of the set share a wire name |
| `ToolNames.SomeAliasIsFree` | src/free_claude_code/core/openai_tool_names.py:165-178 | with distinct digests one of the first n reserved names + 1 aliases is free (pigeonhole) |
| `ToolNames.AliasIsPortable` | src/free_claude_code/core/openai_tool_names.py:166-175 | an alias has 1 to 64 portable characters, whatever the name |
| `ToolNames.UniqueAlias` | src/free_claude_code/core/openai_tool_names.py:165-178 | the loop ends within n reserved names + 1 tries at the first free alias |
| `ToolNames.FromNames` | src/free_claude_code/core/openai_tool_names.py:31-51 | the codec depends on the set of non-empty names alone |
| `Supervisor.RunKeepsInv` | src/free_claude_code/cli/commands.py:83-196 | every interleaving of threads keeps the supervisor's invariant |
| `Supervisor.AtMostOneRun` | src/free_claude_code/cli/commands.py:83-101 | in every interleaving no run is both scheduled and running, and there is at most one run loop |
| `Supervisor.OutdatedServerIsToldToExit` | src/free_claude_code/cli/commands.py:131-185 | in every interleaving a published server has should_exit set exactly if its captured generation is outdated or a stop has been requested |
| `Supervisor.AcceptedIff` | src/free_claude_code/cli/commands.py:83-145 | in every interleaving, until a stop is requested and not after: a run is scheduled or entered exactly while no loop runs, a restart is accepted exactly while one runs or is scheduled |
| `Supervisor.StopIsForGood` | src/free_claude_code/cli/commands.py:147-154 | after a stop, over any run: nothing is scheduled, no loop is entered, every server published later is to exit |
| `Supervisor.RestLeadsTo` | src/free_claude_code/cli/commands.py:103-129 | with nobody else acting and clean shutdowns, the loop gets in at most four steps to capturing the present restart generation exactly if it will reload, and else to leaving |
| `Supervisor.AcceptedRestartIsAppliedIff` | src/free_claude_code/cli/commands.py:103-145 | an accepted restart, of a scheduled run or a running loop, is applied however the threads interleave: no run without stop, abort or unclean close is over before a generation at least as new has been captured; exactly if no loop is on its way out already |
| `Supervisor.LeavingLoopAcceptsRestart` | src/free_claude_code/cli/commands.py:125-145 | a reachable state in which a restart is accepted that need never be applied |
| `Supervisor.ServerSupervisor.ScheduleRun` | src/free_claude_code/cli/commands.py:83-90 | reserved exactly if nothing is stopped, scheduled or running |
| `Supervisor.ServerSupervisor.BeginRun` | src/free_claude_code/cli/commands.py:95-101 | the locked start of run() |
| `Supervisor.ServerSupervisor.Publish` | src/free_claude_code/cli/commands.py:181-185 | a server built from outdated settings, or after a stop, is told to exit at once |
| `Supervisor.ServerSupervisor.Conclude` | src/free_claude_code/cli/commands.py:191-196 | round again exactly for a requested restart without a stop after a clean shutdown |
| `Supervisor.ServerSupervisor.RequestRestart` | src/free_claude_code/cli/commands.py:131-145 | accepted exactly if not stopped and scheduled or running |
| `Supervisor.ServerSupervisor.RequestStop` | src/free_claude_code/cli/commands.py:147-154 | nothing stays scheduled and the published server is told to exit |
| `Workflow.AdmittedIffNotOvertaken` | src/free_claude_code/messaging/workflow.py:350-355 | in any interleaving a turn passes the token check exactly if no stop, and no clear of its own scope, has taken effect since its token was taken |
| `Workflow.CommittedOnlyIfNotOvertaken` | src/free_claude_code/messaging/workflow.py:400-414 | nothing overtakes a turn between its check and its commit |
| `Workflow.LiveIff` | src/free_claude_code/messaging/workflow.py:400-564 | in any interleaving a turn is live exactly from its commit until it ends, a stop succeeds or a clear of its scope does |
| `Workflow.StopIsABoundary` | src/free_claude_code/messaging/workflow.py:499-511 | after a stop that succeeded no turn captured before it is live, in any later run |
| `Workflow.ClearIsABoundary` | src/free_claude_code/messaging/workflow.py:528-564 | the same for a clear and the turns of its own scope |
| `Workflow.ClearSparesOtherScopes` | src/free_claude_code/messaging/workflow.py:541-564 | when a clear is over, the turns of other scopes that were live as it took effect are live exactly unless they ended meanwhile |
| `Workflow.MessagingWorkflow.CaptureToken` | src/free_claude_code/messaging/workflow.py:350-354 | the token of the present generations |
| `Workflow.MessagingWorkflow.AdmitIfCurrent` | src/free_claude_code/messaging/workflow.py:401-406 | goes on exactly with the current token |
| `Workflow.MessagingWorkflow.BeginStopAll` | src/free_claude_code/messaging/workflow.py:503-504 | a new stop generation, under the lock |
| `Workflow.MessagingWorkflow.CommitClearOf` | src/free_claude_code/messaging/workflow.py:541-543 | a new clear generation of one scope |
| `Routing.DecodeInvertsEncode` | src/free_claude_code/core/gateway_model_ids.py:20-51 | both encodings decode to their provider and model, for every model name, slashes included; an empty model does not decode |
| `Routing.OnlyEncodedIdsDecode` | src/free_claude_code/core/gateway_model_ids.py:30-51 | what decodes is one of the two encodings of what it decodes to |
| `Routing.RetiredIff` | src/free_claude_code/config/model_refs.py:12-16 | a reference is retired exactly if its provider is the retired one and its model is not blank |
| `Routing.AdvertisedIdsRouteBack` | src/free_claude_code/application/routing.py:79-104 | the plain, gateway and no-thinking ids of a supported provider's model all route to it, the last with reasoning off |
| `Routing.RetiredRefsFallToTheDefault` | src/free_claude_code/application/routing.py:159-164 | encoded retired references route to the default model |
| `Routing.TierDecides` | src/free_claude_code/application/routing.py:185-216 | a mapped name goes to the model of the first of the four tiers that occurs in it, lower-cased, or to the default model if that has none; the tier's reasoning counts unless it inherits |
| `Routing.MappedNames` | src/free_claude_code/application/routing.py:148-182 | names without a slash are mapped, and so are plain and encoded references to unsupported providers |
| `Routing.RoutesAreSupportedAndDistinct` | src/free_claude_code/application/routing.py:79-143 | with valid settings any name at all routes to supported providers, primary and fallbacks pairwise distinct |
| `Routing.FallbacksDiffer` | src/free_claude_code/application/routing.py:136-143 | the fallbacks are the configured ones but the primary, none twice |
| `Routing.FallbacksKeepOrder` | src/free_claude_code/application/routing.py:136-143 | each fallback stands right after those configured before it that are not the primary |
| `Catalog.BuildClaudeModels` | src/free_claude_code/api/model_catalog.py:189-223 | Claude's list is the first occurrences of the candidate ids |
| `Catalog.ClaudeListIsSound` | src/free_claude_code/api/model_catalog.py:189-223 | no id is listed twice, and listed are exactly the static names, every known model's no-thinking id, and the gateway id of each model not known not to think |
| `Catalog.FirstOccurrencesKeepOrder` | src/free_claude_code/api/model_catalog.py:353-359 | ids are listed in the order in which they come first |
| `Catalog.VariantRoutesBack` | src/free_claude_code/api/model_catalog.py:362-385 | every listed variant of a model routes back to it, with reasoning off for the no-thinking one and as configured for the other |
| `Catalog.ModelList.AppendUnique` | src/free_claude_code/api/model_catalog.py:353-359 | an id is appended unless seen |
| `Catalog.CollectInventory` | src/free_claude_code/api/model_catalog.py:287-330 | the inventory is the first item of each reference, configured ones first |
| `Catalog.InventoryIsFirst` | src/free_claude_code/api/model_catalog.py:287-330 | of each model the inventory has the item that came first, in the order of those |
| `Catalog.DirectListIsSound` | src/free_claude_code/api/model_catalog.py:239-246 | the ids of the direct lists are pairwise distinct, each routes back to its model, with reasoning off for a model that does not think and else as configured, every reference is listed |

## Left out

- Fairness: nothing says that a task that could go on does; where progress is stated, it is that some run makes it.
- Logging, tracing, user-interface text, message sends and edits, SSE frame bytes: no state that matters to the properties.
- Failure classification, Retry-After parsing and HTTP clients: whether a failure is retryable, the random jitter and the parsed delay are inputs of each failure step.
- Floating point: times and delays are real numbers.
- `ProviderExecution.run_call`: a loop over the modelled regions; every order in which it can call them is a run.
- The discovery a refresh runs, the model cache, model catalog publication and connected accounts: a refresh is a hold that ends.
- Cancellation of a cleanup task itself, and fatal exceptions in the generation manager: cleanups end by success or failure.
- Cancellation during the close of a candidate's stream: closing takes time, may expire, and otherwise ends.
- Exceptions from the selection and failure callbacks of the executor: they only take time.
- Rate limiting and background retries of the delivery worker: the wait for capacity is any delay, a retry is another call.
- Delivery.MessagingRateLimiter.Enqueue: takes one future where `_enqueue_internal_multi` takes a list, because its only caller, `_enqueue_internal`, passes a list of one.
- The startup notice and single-reply stop and clear of the messaging workflow: they use the same lock and tokens, and add no harder property.
- The tree queue behind the workflow: the set of live turns, emptied by a stop that succeeds and by a clear for its scope.
- Rewriting a chat body or collecting names from a request: both only apply the codec or its input.
- SHA-256, Unicode lower-casing and encoding: functions of which only the stated facts are used.
- The contents of the provider catalog, settings loading, and metadata of listed models: the properties are about ids and references.
- Building and serving the application inside the supervisor: it takes time and ends by itself, by `should_exit`, or by an exception.
- ToolNames.UniqueAlias: requires distinct digests for as many attempts as there are names, because the source's loop would not end if all digests collided with reserved names.
- Supervisor.AcceptedRestartIsAppliedIff: speaks of runs in which runtimes close cleanly; a runtime that does not close ends the loop instead, as the source intends.
