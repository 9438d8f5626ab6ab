# ChakraMCP relay: a verified model

ChakraMCP's relay carries calls between agents. A caller's request becomes a row of `relay_invocations`; a pull agent claims it under a lease and posts a result. Several relay processes and any number of workers, approvers and sweeps act on the same rows at once. This project models that lifecycle and the state machines around it in Dafny 4.11 and proves what they keep. Each concurrent machine is a world (the shared rows), a datatype of steps, and `Run` over any sequence of steps, so a lemma about every run covers every interleaving. A step whose WHERE clause finds nothing, or that would wait for a lock, changes nothing. Histories (`lapses`, `swept`, `seen`, `latest`, `windows`, `marks`, `log`) are fields no code reads.

| file | models |
|---|---|
| `InvocationRows`, `InvocationRelay` | one row and its updates; the tables and every committed step of claims, results, drafts, approvals, purges and the sweep |
| `DeadlinePass` | one deadline pass with others' steps inside it; lone passes and clearing a backlog |
| `SweepTraces` | what a sweep's own statements, and others' steps between them, did to the tables: which calls each timed out, and what each pass leaves of the rows |
| `InvocationSweep` | the sweep as a class whose methods run it statement by statement, with failures and wakes |
| `SweepReports` | which agents a sweep wakes on which feed, and what its counts count, said of the rows it leaves |
| `InvocationTasks` | what the caller is shown, and how long it stays true |
| `InvocationOutcomes` | what each step makes of a call, column by column; that an answer reaches the caller, for good, and that none is made up |
| `WakeHub`, `InboxWait` | queued work, each process's wake hub, the bus between processes, waiting pulls; the pull's own loop |
| `Heartbeats`, `Presence` | one copy's last-seen maps; all copies, their flushes and the shared table |
| `CreditLedger`, `CreditRuns`, `CreditStatus` | wallet, ledger and charges; concurrent transactions on them; the status and alerts shown |
| `SigninLimit` | the failed sign-in limit, sequential and under concurrent attempts |
| `UsageEvents` | the usage recorder, its queue and its batching writer |
| `ScopeCache` | the agent-scope cache |
| `PollWait` | the CLI's poll-until-terminal loop |
| `Retention` | the batched pruning of usage events |
| `Outbound` | which addresses a request to an agent's URL may reach |
| `Prelude`, `Batches` | options and results; what `LIMIT … SKIP LOCKED` may pick |

## What turned out not to hold

Each of these is stated as a lemma, with the exact condition under which the code does keep the property.

- **A settled call's answer can change.** Purging the conversation a call was made in clears its output and error. `AnswerStaysIff`: what `get_task` shows stays for good exactly when the call was made outside a conversation, or shows no output and no error a purge clears. The status never changes (`SettledForGood`).
- **The deadline pass is not always oldest first.** The draft query has no ORDER BY, so with more than 500 due calls that have drafts the longest overdue one can be passed over (`OverdueCallCanBePassedOver`). `OldestIsSureIff`: it is sure to be taken exactly when it has no pending draft or at most 500 drafts are due. The number timed out is the full batch either way.
- **Four ways to lose a wakeup.** A claim skips a row another transaction has locked but leaves claimable, as the sweep's backfill does (`SkippedRowGoesUnseen`); after a failed bus listener everyone is woken before the next attempt to listen, not after (`WakeWhileDownGoesUnheard`); the notify that follows a commit is never made, because its acknowledgement was lost or the request dropped (`UnsaidGoesUnheard`); or the process dies with wakes to make or publish (`CrashGoesUnheard`). `ServedUnlessLost` shows that no other step of the model does, and states exactly when each of these does; each is given as a run from processes that have just started. The pull then sleeps to its deadline.
- **A sweep can time calls out and wake nobody**: exactly those of a pass whose commit landed while the copy saw an error (`Sweeper.SweepOnce`, `SweepAccounts`). Their notices are in the table.
- **A claim from before deliveries were counted** (migration 0053) is in progress with 0 deliveries (`OldClaimHasNoDelivery`). `DeliveriesFollowLapses`: an in-progress call's deliveries are one more than its lapses exactly when it isn't such a claim still never handed back.
- **A queued charge need not be charged.** Whether credits are on is each process's own setting, and one that has them off discards the shared queue. `QueuedIsCharged`: a queued charge ends queued or charged exactly when no such process drops it on the way; so none is lost while every process has credits on (`NoneLostWhileOn`), and one process with credits off can lose any for good (`OneOffLosesIt`).
- **Concurrent sign-in attempts pass the limit of 10.** The check and the count are two statements. With `m` attempts in flight the stored count is at most 9 + m (`CountIsBounded`) and any 15 minutes hold at most 17 + 2m failures (`SpanIsBounded`); both are reached (`BoundIsReached`, `SpanBoundIsReached`). For one at a time they are 10 and 19.
- **A pruner can stop with old rows left** when another copy's pruner deletes the same batch under it (`SecondPrunerStops`). `PruneIsSureIff`: whatever other copies do, a prune is sure to leave nothing older than its last cutoff exactly when at most one batch is that old before it begins.
- **A retryable error can end the CLI's wait**: errors are told apart by finding 401, 403 or 404 anywhere in their text (`ServerErrorEndsTheWait`); `RetriedUnlessACodeAppears` says exactly which are retried.
- **Redirects.** The header of `outbound.rs` says at most 3 are followed. The policy counts the URLs already requested, the first one too, so 3 requests are made at most, and 2 redirects followed (`TwoRedirectsAreFollowed`).

## Model

| member | source | states |
|---|---|---|
| InvocationRelay.StepKeepsAccounts | backend/relay/src/invocation_sweep.rs:363-385 | Each step keeps one notice per timed-out call with an agent, and the counts equal to the calls |
| InvocationRelay.StepKeepsLocks | backend/relay/src/invocation_sweep.rs:218-272 | Passes of different copies hold disjoint rows; what a pass holds stays due and its drafts pending until it ends |
| InvocationRelay.StepKeepsInv | backend/relay/src/invocation_sweep.rs:165-385 | Every step of anyone keeps the whole invariant |
| InvocationRelay.DeliveriesFollowLapses | backend/relay/src/invocation_sweep.rs:305-331 | In every run a pending call's deliveries equal its lapses (at most 2), no call lapses more than 3 times, the last time as its timeout, and an in-progress call's are one more than its lapses (1 to 3) if and only if it isn't a claim from before deliveries were counted that nobody has handed back since |
| InvocationRelay.CountedStays | backend/relay/src/handlers/invoke.rs:1787-1824 | A call whose claims are counted at one point has counted claims in every run from there |
| InvocationRelay.OldClaimHasNoDelivery | backend/migrations/0053_invocation_lease_columns.sql:4-26 | Any row in progress at the migration is such a claim, with no delivery |
| InvocationRelay.SettledForGood | backend/relay/src/consent/reply.rs:192-212 | First answer wins: in every run a settled row stays as it is, but for a purge of its conversation |
| InvocationRelay.DeadlineNeverMoves | backend/relay/src/invocation_sweep.rs:188-216 | In every run an open call's deadline, once set, never moves |
| InvocationRelay.OneNoticePerTimeout | backend/relay/src/invocation_sweep.rs:363-385 | Over any number of sweeping copies each timed-out call with an agent was told of in exactly one notice, no other call in any, the returned counts add up to the calls timed out, and the table lacks a notice exactly when it was pruned |
| DeadlinePass.RunStillLocked | backend/relay/src/invocation_sweep.rs:218-226 | Whatever others do between a pass's statements, the rows it locked are untouched |
| DeadlinePass.DraftsGoWithTheirCalls | backend/relay/src/invocation_sweep.rs:218-286 | From the call lock to the commit, with any steps between: exactly the locked calls time out, each with every draft pending when it was locked, and no other draft is cancelled |
| DeadlinePass.EligibleCount | backend/relay/src/invocation_sweep.rs:228-262 | The limit on drafts and the exclusion of calls with unlocked drafts never make a pass smaller |
| DeadlinePass.LonePassTakesAFullBatch | backend/relay/src/invocation_sweep.rs:226-272 | With nothing locked by others a pass times out exactly min(500, due calls) and leaves the rest due |
| DeadlinePass.FewDraftsOldestFirst | backend/relay/src/invocation_sweep.rs:242-257 | With at most 500 due drafts every call timed out is at least as overdue as every one left |
| DeadlinePass.OldestIsSureIff | backend/relay/src/invocation_sweep.rs:228-257 | The longest overdue call is timed out whatever the database picks if and only if it has no pending draft or at most 500 drafts are due |
| DeadlinePass.OverdueCallCanBePassedOver | backend/relay/src/invocation_sweep.rs:228-241 | A run from empty tables after which 501 drafted calls are due and a pass may leave the longest overdue one |
| DeadlinePass.LonePassExists | backend/relay/src/invocation_sweep.rs:226-272 | Some pass is always possible |
| DeadlinePass.BacklogClears | backend/relay/src/invocation_sweep.rs:226-300 | n due calls are cleared after k passes if and only if k is at least n/500 rounded up, whatever the database picks |
| SweepTraces.TraceAccounts | backend/relay/src/invocation_sweep.rs:163-186 | Over any number of sweeps of a copy, the calls timed out since are, with nothing twice, those its own statements timed out and those the steps of others between them did |
| SweepTraces.SweepTimesOut | backend/relay/src/invocation_sweep.rs:226-359 | A sweep's own statements time out exactly the calls its deadline pass picked, if that committed, and the claims on their third delivery its lease pass picked, if that did; heard of or not |
| SweepTraces.SweepAccounts | backend/relay/src/invocation_sweep.rs:163-186 | So after a sweep, however it went, the calls timed out are those before, those and those others' steps timed out, with nothing twice |
| SweepTraces.AloneSweepTimesOut | backend/relay/src/invocation_sweep.rs:163-186 | With no steps of others, exactly those before and those |
| SweepTraces.FillLeaves | backend/relay/src/invocation_sweep.rs:188-216 | A backfill that commits, heard of or not, gives a batch of open rows without a deadline the full one for their kind from now; no other row changes |
| SweepTraces.LateLeaves | backend/relay/src/invocation_sweep.rs:226-286 | A deadline pass that commits, heard of or not, times out a batch of the longest overdue nobody holds and whose drafts it holds, and changes no other row |
| SweepTraces.LeaseLeaves | backend/relay/src/invocation_sweep.rs:305-340 | A lease pass that commits, heard of or not, takes the 500 claims that lapsed first: the third delivery times out, the others are pending again with their deliveries kept, and no other row changes |
| SweepReports.SweepWakesSay | backend/relay/src/invocation_sweep.rs:295-357 | Each wake a sweep makes, and only those: once for the called agent of a call it heard it timed out or handed back, on the feed where the row it leaves is found |
| SweepReports.SweepReportSays | backend/relay/src/invocation_sweep.rs:168-186 | Its counts: rows backfilled, late calls never claimed, late calls claimed, claims pending again, claims timed out |
| SweepReports.ReportCountsTheCalls | backend/relay/src/invocation_sweep.rs:168-186 | The timeouts a successful sweep reports add up to the calls it timed out |
| InvocationSweep.InvocationSettings.Lease | backend/relay/src/invocation_sweep.rs:108-113 | A lease is what was asked for, or a day if that is less; the default when nothing, or 0, was |
| InvocationSweep.InvocationSettings.Ttl | backend/relay/src/invocation_sweep.rs:118-131 | Only under 10 seconds is refused; else the call lives as long as was asked, or the default for its kind if that is less or nothing was |
| InvocationSweep.BackfillInFull | backend/relay/src/invocation_sweep.rs:188-216 | What a backfill gives by its copy's own settings: 1000 milliseconds per second of the time for `human_in_loop` calls, or of the default, from now |
| InvocationSweep.Sweeper.NotifyAll | backend/relay/src/invocation_sweep.rs:295-297 | One wake, on the feed asked for, for the called agent of each call named, and no other wake |
| InvocationSweep.Sweeper.Await | backend/relay/src/invocation_sweep.rs:222-226 | Between two statements the tables move by exactly the given steps of others, which leave this pass's locks as they are |
| InvocationSweep.Sweeper.Backfill | backend/relay/src/invocation_sweep.rs:188-216 | One that commits, heard of or not, runs the one statement and nothing else; one that doesn't changes nothing; the count returned is the rows it picked |
| InvocationSweep.Sweeper.TakeDrafts | backend/relay/src/invocation_sweep.rs:228-241 | Locks a batch of unlocked pending drafts of due calls and does nothing else |
| InvocationSweep.Sweeper.TakeCalls | backend/relay/src/invocation_sweep.rs:242-272 | Locks a batch of the longest overdue of the calls whose draft, if any, it holds, and does nothing else; with none the pass is over |
| InvocationSweep.Sweeper.Abort | backend/relay/src/invocation_sweep.rs:226-286 | A failed statement rolls the pass back: no row, draft or notice changed |
| InvocationSweep.Sweeper.Deadlines | backend/relay/src/invocation_sweep.rs:226-300 | Whatever fails, the tables are exactly what its statements and the given steps of others make of them (`LateTrace`); it errs exactly when a statement or a commit it needed did; it counts those claimed apart and wakes exactly the agents of the calls it heard were timed out |
| InvocationSweep.Sweeper.LapseClaims | backend/relay/src/invocation_sweep.rs:305-340 | Picks the claims nobody holds whose leases lapsed first; those that time out are exactly the third deliveries among them |
| InvocationSweep.Sweeper.Leases | backend/relay/src/invocation_sweep.rs:305-359 | The claims that lapsed first are picked; it errs exactly when its statement or a commit it needed did; when it heard of the commit, the called agent of each call now timed out is woken once for notices, of each now pending once for work, and nobody else |
| InvocationSweep.Sweeper.SweepOnce | backend/relay/src/invocation_sweep.rs:163-186 | With others' steps between and inside its passes and any failure anywhere, the tables are exactly what the sweep's own statements and those steps make of them (`SweepTrace`), up to the first failing pass; it errs exactly when one fails; of the calls it heard it timed out or handed back, each called agent is woken once, for notices when the row it leaves has timed out and for work when it is pending, and nobody else is; on success each count is of the rows it leaves |
| InvocationTasks.TimeoutTellsWhy | backend/relay/src/invocation_sweep.rs:258-329 | A timed-out call's caller is told truly whether it was picked up by its deadline, or delivered three times |
| InvocationTasks.FinalStateStays | backend/relay/src/inbox_bridge.rs:352-406 | Once a poll reports a final state, every later poll reports it |
| InvocationTasks.AnswerStaysIff | backend/relay/src/calls/purge.rs:25-42 | A settled call is shown the same for good exactly when it was made outside a conversation or shows nothing a purge clears |
| InvocationTasks.PurgeChangesAnswer | backend/relay/src/calls/purge.rs:25-42 | A call with anything to clear has a run after which the caller is shown less |
| InvocationOutcomes.ResultTakenIff | backend/relay/src/consent/reply.rs:200-245 | A posted result is taken exactly for a call in progress, or pending with an earlier delivery |
| InvocationOutcomes.ResultSettles | backend/relay/src/consent/reply.rs:182-212 | It settles the call as succeeded exactly when the reply says so, else failed, with the reply's error and its output or null, and changes nothing else |
| InvocationOutcomes.ConfirmedIff | backend/shared/src/consent/decide.rs:638-668 | A draft can be confirmed exactly while it is pending, as shown and in time, and its call is claimed |
| InvocationOutcomes.ConfirmSettles | backend/shared/src/consent/reply.rs:394-420 | A confirmed draft settles its call with exactly what was shown, and is approved |
| InvocationOutcomes.OwnerSettles | backend/shared/src/consent/reply.rs:311-372 | An owner's answer settles the call, claimed first if it was in the feed, and is kept as an approved draft |
| InvocationOutcomes.OwnerAnswersIff | backend/shared/src/consent/reply.rs:275-372 | Taken exactly for a call in the feed or claimed whose draft, if any, wasn't decided |
| InvocationOutcomes.ShownState | backend/relay/src/inbox_bridge.rs:378-406 | Which status is shown as which state, with what message and artifacts |
| InvocationOutcomes.ShownToItsCaller | backend/relay/src/inbox_bridge.rs:361-376 | A task is shown to the agent that called, and to nobody else |
| InvocationOutcomes.AnswerIsShownForGood | backend/relay/src/inbox_bridge.rs:352-406 | In every run from an answer on, each poll shows its caller "completed" with exactly the output or "failed" with the error, or, once its conversation is purged, what a purge leaves |
| InvocationOutcomes.SuccessWasAnswered | backend/relay/src/inbox_bridge.rs:352-406 | In every run, a call that comes to succeed was answered in it, and what its caller is shown is that answer |
| InvocationOutcomes.PullClaims | backend/relay/src/handlers/invoke.rs:1787-1824 | A claim is of a pending call, counts as a delivery and sets the lease, if there is one |
| InvocationOutcomes.HandBackUnclaims | backend/relay/src/handlers/invoke.rs:1918-1935 | A claim without a drafted reply can be handed back, and then doesn't count |
| InvocationOutcomes.ClaimThenHandBack | backend/relay/src/handlers/invoke.rs:1918-1935 | A claim handed back at once leaves the call as it was |
| InvocationOutcomes.ApprovalReleases | backend/shared/src/consent/decide.rs:594-613 | Approval makes a held call pending, its deadline as far from now as it was from the call's making |
| InvocationOutcomes.RefusalRejects | backend/shared/src/consent/decide.rs:446-456 | A refused request is rejected with the reason |
| InvocationOutcomes.DraftStored | backend/shared/src/consent/reply.rs:85-124 | A drafted reply stands in for the one before unless that was decided, and touches no call |
| InvocationOutcomes.DraftFails | backend/relay/src/consent/expiry.rs:28-64 | A draft denied in time or run out fails its call if that is still claimed |
| InvocationOutcomes.RevokeRejects | backend/relay/src/handlers/grants.rs:488-496 | A revoked grant rejects what is queued under it; an error there was stays |
| InvocationOutcomes.CloseSettles | backend/relay/src/consent/cascade.rs:93-132 | A closed conversation fails its open calls and rejects its held ones |
| InvocationOutcomes.DeletionRejects | backend/relay/src/consent/cascade.rs:20-38 | A deleted capability rejects the requests held for it |
| InvocationOutcomes.CancelsDrafts | backend/relay/src/consent/cascade.rs:20-132 | Each of these three cancels the pending drafts it names and no other |
| InvocationOutcomes.PurgeClearsContent | backend/relay/src/calls/purge.rs:32-42 | A purge clears output and error, but for the error that says so, and leaves the rest of the row |
| InvocationOutcomes.CommitTimesOutRow | backend/relay/src/invocation_sweep.rs:242-272 | A deadline pass's commit times out each call it holds, with the reason that fits its claim, and no other changes |
| InvocationOutcomes.HeldAreDue | backend/relay/src/invocation_sweep.rs:242-272 | What it holds is still open and overdue then |
| InvocationOutcomes.BackfillPicks | backend/relay/src/invocation_sweep.rs:191-200 | The backfill picks only open calls without a deadline, and leaves one only with 1000 picked |
| InvocationOutcomes.DraftsPicked | backend/relay/src/invocation_sweep.rs:228-241 | The draft lock picks only pending drafts of overdue calls, and leaves one only with 500 picked |
| InvocationOutcomes.CallsPicked | backend/relay/src/invocation_sweep.rs:242-255 | The call lock picks only overdue calls whose draft, if pending, is held, and leaves one only with 500 picked, none due later |
| InvocationOutcomes.LapsedPicked | backend/relay/src/invocation_sweep.rs:307-315 | The lease statement picks only claims past their lease, and leaves one only with 500 picked, none past it later |
| WakeHub.ServedUnlessLost | backend/relay/src/inbox_wait.rs:53-71 | A step leaves a waiting pull with a signal made or due exactly when it isn't one of the four that lose it |
| WakeHub.NoLostWakeup | backend/relay/src/inbox_wait.rs:53-71 | In every run from the start, a pull blocked on work it could claim has a newer version than it has seen or a signal for that work still to come, unless one of the four lost its signal since it blocked |
| WakeHub.OnlyRisksLose | backend/relay/src/inbox_wait.rs:53-71 | A pull's signal is lost only by rows of its own feed let go, its own key published while its listener has failed, or its own key dropped by the process that had it to pass on |
| WakeHub.PromiseCanBeKept | backend/shared/src/wake/bus.rs:54-143 | From wherever a blocked pull's signal is due, steps of the hubs alone bring it about: notify, connect or reconnect, publish, receive, wake |
| WakeHub.ClosedStaysClosed | backend/shared/src/wake/mod.rs:238-274 | A process that shuts down lets no pull wait again, in any run in which it isn't started anew |
| WakeHub.RestartTakesPulls | backend/shared/src/wake/mod.rs:170-182 | One started anew takes pulls, with every slot free |
| WakeHub.ClaimedRows | backend/relay/src/handlers/invoke.rs:1787-1824 | A claim takes rows of its own feed that nobody holds, as many as there are up to its limit, and no other; the pull waits on only when there were none |
| WakeHub.HeldRows | backend/relay/src/invocation_sweep.rs:191-210 | Rows are locked while free, and then taken out of the feed or just let go |
| WakeHub.QueueKeepsServed | backend/relay/src/inbox_bridge.rs:286-318 | Queueing commits first and notifies after, so new work is owed a signal |
| WakeHub.HubChangeKeepsPromise | backend/shared/src/wake/mod.rs:186-229 | No notify, delivery, reconnect or wake of everyone drops a signal due to someone waiting |
| WakeHub.PublishKeepsPromise | backend/shared/src/wake/bus.rs:54-81 | Publishing loses a signal exactly when it was the only one due and the receiver's listener is down |
| WakeHub.SilenceKeepsPromise | backend/relay/src/inbox_bridge.rs:313-318 | A notify never made loses a signal exactly when it was the only one due |
| WakeHub.CrashKeepsPromise | backend/shared/src/wake/mod.rs:186-192 | A process that dies loses another's signal exactly when only it had it to pass on |
| WakeHub.SlotsAreKept | backend/shared/src/wake/mod.rs:238-269 | In every run from the start waiting pulls never exceed the slots, and a key has an entry exactly while waited on |
| WakeHub.SkippedRowGoesUnseen | backend/relay/src/invocation_sweep.rs:191-200 | A run from the start in which rows skipped because the backfill held them leave the pull asleep with claimable work |
| WakeHub.WakeWhileDownGoesUnheard | backend/shared/src/wake/bus.rs:110-143 | A run from the start in which a listener fails, everyone is woken, and a wake published before the next connection wakes nobody |
| WakeHub.UnsaidGoesUnheard | backend/relay/src/inbox_bridge.rs:313-318 | A run from the start in which work committed, its notify never made, leaves the pull asleep |
| WakeHub.CrashGoesUnheard | backend/relay/src/inbox_bridge.rs:313-318 | So does work whose process dies before it notifies |
| InboxWait.ClaimWaiting | backend/relay/src/inbox_wait.rs:38-75 | A pull answers exactly what its last claim gave, error included, and claims again only after an empty claim and a wake; the seconds are those honoured, but 0 when it didn't wait or shutdown ended an empty wait; a pull that waited records a heartbeat |
| Heartbeats.Heartbeats.Record | backend/relay/src/heartbeats.rs:115-120 | A poll is in both maps |
| Heartbeats.Heartbeats.PeerOf | backend/relay/src/heartbeats.rs:123-140 | Online means seen in the last five minutes |
| Heartbeats.Heartbeats.SetWake | backend/relay/src/heartbeats.rs:149-156 | The flag shows at once, until the next reload |
| Heartbeats.Heartbeats.Restore | backend/relay/src/heartbeats.rs:164-172 | The loop puts a batch back as the pointwise newer time |
| Heartbeats.Heartbeats.Reload | backend/relay/src/heartbeats.rs:177-215 | The loop merges the table's recent rows with what is here and not yet 30 days old, each agent with the newer of its two times |
| Heartbeats.Heartbeats.Flush | backend/relay/src/heartbeats.rs:219-246 | With polls arriving meanwhile, a failed write loses none of the batch, even one that had committed |
| Heartbeats.RetryIsHarmless | backend/relay/src/heartbeats.rs:226-246 | A batch written again after an error that hid a commit changes nothing |
| Heartbeats.PolledSays | backend/relay/src/heartbeats.rs:115-120 | After any polls each agent polled has its last one's time, and every other what it had |
| Presence.MaximumIsConserved | backend/relay/src/heartbeats.rs:115-172 | In every run, for every agent, nothing anywhere is newer than its latest poll, and an unflushed map, a batch in flight or the table has it |
| Presence.NeverBackwards | backend/relay/src/heartbeats.rs:177-215 | No flush or reload of any copy moves an in-window time backwards |
| Presence.CopiesConverge | backend/relay/src/heartbeats.rs:123-126 | After every copy has flushed, a copy that reloads shows exactly each agent's latest poll inside the window, whatever runs meanwhile |
| CreditLedger.Credits.AddEntry | backend/app/src/credits_service.rs:148-206 | Exactly which entries are taken, and that each moves the balance and is recorded with the balance after |
| CreditLedger.Credits.UpdateSettings | backend/app/src/credits_service.rs:220-330 | Settings become what was asked, one row is recorded, and a change of nothing leaves no trace |
| CreditLedger.StaleReadUndoes | backend/app/src/credits_service.rs:252-308 | A commit that overwrites all three settings from a stale read does what was asked if and only if the read was right about every setting the change leaves alone |
| CreditRuns.CommitIsAtomic | backend/app/src/credits_service.rs:241-321 | In every interleaving a settings commit does what the whole update would do alone at that instant: each setting as the change asks or as it was then, so of two first-time changes neither undoes the other |
| CreditRuns.LockEnds | backend/app/src/credits_service.rs:241-330 | In every run the wallet's lock is held only by a settings transaction under way, whose end frees it |
| CreditRuns.BalanceIsConserved | backend/app/src/credits_service.rs:176-196 | In every interleaving balance = ledger − charges, of invocations and of calls' messages and memory, and each row's snapshot is that over the history up to it |
| CreditRuns.SettingsReplay | backend/app/src/credits_service.rs:265-321 | Replaying the recorded changes from the defaults gives the current settings, each `from` is the previous `to`, and none is a no-change |
| CreditRuns.PayAddsCredits | backend/app/src/purchases/mod.rs:342-383 | A payment not credited before adds its credits to the balance in one ledger row with the balance after; one credited before changes nothing |
| CreditRuns.GrantAddsMonths | backend/relay/src/limits/credits/worker.rs:504-541 | A wallet not granted this month gets its own monthly grant, or the default, once, or once per month missed but at most 12 times |
| CreditRuns.EnterAddsAmount | backend/app/src/credits_service.rs:176-196 | An admin's entry adds its amount, of either sign |
| CreditRuns.QueueSays | backend/relay/src/limits/credits/worker.rs:201-233 | What is new is queued at its cost; what is dropped leaves the queue, and no wallet changes |
| CreditRuns.DrainDebits | backend/relay/src/limits/credits/worker.rs:382-478 | A drain takes exactly its items off the queue, records a charge for each, and debits their costs together |
| CreditRuns.NothingTwice | backend/app/src/purchases/mod.rs:348-394 | No invocation is charged twice, no payment credited twice, no month granted twice |
| CreditRuns.QueuedIsCharged | backend/relay/src/limits/credits/worker.rs:115-176 | In every run a queued charge ends queued or charged if and only if no process with credits off drops it, and charged if and only if one with credits on drains it |
| CreditRuns.NoneLostWhileOn | backend/relay/src/limits/credits/worker.rs:112-121 | While every process has credits on, no queued charge is lost |
| CreditRuns.OneOffLosesIt | backend/relay/src/limits/credits/worker.rs:165-193 | A process started with credits off can drop any queued charge, which is then never charged, whatever follows |
| CreditRuns.DrainedAtItsCost | backend/relay/src/limits/credits/worker.rs:382-478 | A drained item is charged what it was queued with, an invocation what the draining process asks for one |
| CreditRuns.QueueIsUncharged | backend/relay/src/limits/credits/worker.rs:388-403 | In every run nothing queued has been charged, and nothing charged is queued again |
| CreditStatus.AlertsMatchTheView | backend/app/src/credits_service.rs:512-557 | The banner shows an account exactly when its own page says blocked or low |
| CreditStatus.ViewShows | backend/app/src/credits_service.rs:399-445 | Off, unlimited, blocked and low, each exactly when; and the balance, with a first grant still to come |
| CreditStatus.CallsLeftAreAffordable | backend/app/src/credits_service.rs:541-553 | `calls_left` is how many more calls the balance pays for, and 0 exactly when blocked |
| CreditStatus.FirstGrantKeepsTheView | backend/app/src/credits_service.rs:399-436 | A first grant still to come is shown already, so its landing leaves the shown balance as it was, and until then the account isn't blocked |
| SigninLimit.SigninFailures.Check | backend/app/src/signin_limit.rs:29-51 | Refuses exactly at ten failures in a live window, with the seconds until it ends, rounded, 1 to 900 |
| SigninLimit.SigninFailures.RecordFailure | backend/app/src/signin_limit.rs:55-77 | Counts within the window or starts one, and drops only rows a day old |
| SigninLimit.SigninFailures.Authenticate | backend/app/src/accounts.rs:150-189 | While blocked nothing is verified, nothing changes and the wait is told; else success clears, a wrong password counts and is unauthorized, and any other failure is passed on |
| SigninLimit.AttemptSays | backend/app/src/accounts.rs:150-189 | Each step of concurrent attempts does to the row and the attempts in flight what one alone would |
| SigninLimit.CountIsBounded | backend/app/src/signin_limit.rs:29-77 | With at most m attempts in flight the stored count never passes 9 + m (10 for one at a time) |
| SigninLimit.SpanIsBounded | backend/app/src/signin_limit.rs:55-77 | Any half-open 15 minutes hold at most 17 + 2m recorded failures (19 for one at a time) |
| SigninLimit.BoundIsReached | backend/app/src/accounts.rs:150-189 | For every m the bound 9 + m is reached |
| SigninLimit.SpanBoundIsReached | backend/app/src/accounts.rs:150-189 | For every m some 15 minutes hold 17 + 2m |
| UsageEvents.WriteUsageBatch | backend/relay/src/events.rs:258-286 | Looking each distinct header up once gives the rows that resolving event by event would: each event's action, under the user its header resolves to or that is known |
| UsageEvents.UsageWriter.WakeUp | backend/relay/src/events.rs:224-252 | One wake-up writes the events of the first n messages, at most 500, then answers exactly the flushes among them |
| UsageEvents.EventsAreConserved | backend/relay/src/events.rs:189-241 | In every run recorded = dropped + accepted, and the accepted are, in order, those written, those left of the batch and those queued |
| UsageEvents.AnsweredFlushIsWritten | backend/relay/src/events.rs:210-241 | A flush is answered only after every event accepted before it was handed to the insert |
| UsageEvents.FlushesAreAnswered | backend/relay/src/events.rs:210-252 | In every run, once the writer waits on an empty queue exactly the flushes sent have been answered |
| ScopeCache.OnlyAllowsGoStale | backend/relay/src/scope_cache.rs:84-95 | An answer differs from the database exactly when a live entry still allows a removed agent |
| ScopeCache.SameEntryIff | backend/relay/src/scope_cache.rs:47-53 | Two credentials share an entry exactly when they share a minted token, or have none and share an API key |
| ScopeCache.Cache.Reload | backend/relay/src/scope_cache.rs:107-117 | A read is stored as it was, and nothing else is; an error stores nothing |
| ScopeCache.Cache.Allows | backend/relay/src/scope_cache.rs:84-95 | False only from a read made in the call; true only from one in the call or stored less than the time to live ago; exactly the reads made in the call are stored |
| ScopeCache.ForgettingForcesARead | backend/relay/src/scope_cache.rs:97-105 | Forgetting a credential makes its next lookup a read and changes no other's |
| ScopeCache.HitsAreRecent | backend/relay/src/scope_cache.rs:107-125 | In every run of concurrent calls a hit was read less than the time to live plus one read's duration ago |
| PollWait.WaitEndsWhenSettled | backend/cli/src/waiters.rs:48-53 | A status ends the wait exactly when the relay has settled the call |
| PollWait.RetriedUnlessACodeAppears | backend/cli/src/client.rs:185-202 | An error that isn't 401, 403 or 404 is retried if and only if none of those numbers occurs in the server's or the client's words; the status itself never makes the difference |
| PollWait.ErrorsAreToldApart | backend/cli/src/waiters.rs:183-201 | Which error ends the wait as which: a mention of 401 before one of 403 before one of 404, each with the error's text; without any it goes on |
| PollWait.TextContains | backend/cli/src/client.rs:185-202 | An error's rendered text mentions a code exactly when its status is it or its words mention it |
| PollWait.RefusalsEndTheWait | backend/cli/src/waiters.rs:183-196 | A 401, 403 or 404 always ends the wait, and a 401 always as unauthorized |
| PollWait.ServerErrorEndsTheWait | backend/cli/src/waiters.rs:183-201 | A 502 for a call whose id has 404 in it ends the wait as if the id were wrong |
| PollWait.JitteredMs | backend/cli/src/waiters.rs:126-131 | A sleep is at least 100 ms and within 20 % of the interval either way |
| PollWait.PollUntilTerminal | backend/cli/src/waiters.rs:155-216 | Succeeds exactly when the last fetch is a success with a terminal status, with that status and body, and every earlier one left it waiting: a status that isn't terminal, or an error without the codes; a success without a status is transient; a timeout comes at or after the deadline and says what was seen last. Ends for every jitter: at most ⌈T/100 ms⌉ + 1 fetches, each a jittered interval after the one before, overrun at most max(interval/5, 100 ms) plus the last fetch |
| Retention.SecondPrunerStops | backend/relay/src/retention.rs:47-72 | Whenever more than a batch is old there are rounds beside which a prune may run so: it deletes nothing, ends, and leaves old rows |
| Retention.PruneIsSureIff | backend/relay/src/retention.rs:47-72 | Whatever the database picks and others delete, a prune leaves nothing older than its last cutoff if and only if at most a batch of the events is older before it begins |
| Retention.LastStatementIsSureIff | backend/relay/src/retention.rs:47-72 | The same from any point of its loop: a statement that ends it leaves nothing old if and only if at most a batch is due as it begins |
| Retention.NewsIsNeverDue | backend/relay/src/retention.rs:52-57 | Events that come in during a prune are never due, so its loop is over those there were at its start |
| Retention.NothingOldLeftIff | backend/relay/src/retention.rs:66-68 | What one run leaves: nothing older than its last cutoff exactly when its last statement found at most a batch due, or others deleted all it didn't pick |
| Retention.PruneIsShort | backend/relay/src/retention.rs:47-72 | At most one statement more than full batches fit, each event deleted at most once and counted |
| Retention.AloneIsOneShot | backend/relay/src/retention.rs:47-72 | Alone, a prune leaves and deletes exactly what one delete at its last statement's time would |
| Retention.Prune | backend/relay/src/retention.rs:47-72 | The loop ends, and does and counts what those lemmas are about |
| Outbound.V4ClassIsItsBlock | backend/relay/src/outbound.rs:202-228 | The octet tests are exactly the reserved and private address blocks |
| Outbound.V6ClassIsItsRange | backend/relay/src/outbound.rs:230-274 | The segment tests are exactly the address ranges by the 128-bit number, embedded IPv4 addresses included |
| Outbound.EmbeddingKeepsTheClass | backend/relay/src/outbound.rs:230-256 | The mapped, NAT64 and 6to4 forms of an IPv4 address get its class (section 2.5.5.2 of RFC 4291, section 2.1 of RFC 6052, section 2 of RFC 3056) |
| Outbound.AllowingPrivateAdds | backend/relay/src/outbound.rs:86-92 | Allowing private addresses adds exactly the private class, and a never-allowed address is never allowed |
| Outbound.Guarded | backend/relay/src/outbound.rs:163-178 | The resolver keeps exactly the allowed addresses |
| Outbound.ReachedExactly | backend/relay/src/outbound.rs:163-178 | A request may reach its own address, or every allowed one its name resolves to, and no other |
| Outbound.PassesIff | backend/relay/src/outbound.rs:113-133 | Which URLs pass: http or https with a host, an allowed address, and localhost only when private addresses are |
| Outbound.LocalhostInAnyCase | backend/relay/src/outbound.rs:135-138 | Localhost in any mix of case |
| Outbound.LocalhostWithADot | backend/relay/src/outbound.rs:135-138 | Or with trailing dots |
| Outbound.LocalhostExactly | backend/relay/src/outbound.rs:135-138 | Is "localhost" or a name under it |
| Outbound.TwoRedirectsAreFollowed | backend/relay/src/outbound.rs:142-156 | With targets that pass the check min(3, targets + 1) URLs are requested, in order: at most 2 redirects |
| Outbound.OnlyAllowedAddressesReached | backend/relay/src/outbound.rs:113-178 | From a checked URL, over any redirects and DNS answers, only allowed addresses are connected to |

## Left out

Assumptions, and what the model then does not say:

- Each SQL statement is one atomic step on maps of rows, `SKIP LOCKED` an arbitrary set of rows held by others, and `now()` one value per transaction. Transactions other than the deadline pass and the settings update are one step.
- Times are whole milliseconds (nanoseconds in `PollWait`), so the rounding of `elapsed_ms` to a millisecond is not modelled. Integers are unbounded: 64-bit overflow of a balance is an error in the database, not part of this model.
- A claim takes one row per step, oldest first and the batch limit aside; a call's semantics, and whether its pull gave a lease, are parameters.
- Consent requests to start a call appear only as the approval or refusal of a held call; the terms, approvers and hashes are not modelled. A call forwarded to a push agent is only a row inserted settled.
- Deleting an agent or an account, and with it rows or wallets, is not modelled; so the 0 that a deleted account is charged is not either. Deleting a capability is: it cancels pending drafts without settling their calls, and rejects held requests.
- `InvocationRelay.OneNoticePerTimeout`: the age at which notices are pruned (30 days) is not modelled; a prune may take any.
- `InvocationSweep.Sweeper.Leases`: its one transaction is one step, so others' steps fall before and after it, not inside; a failure before its commit leaves no trace.
- `Presence.MaximumIsConserved`: a process that dies loses what it had not flushed; and a poll's clock read and insert are one step on a clock that does not run back, which the code nearly does (it reads just before it locks).
- `InboxWait.ClaimWaiting`: what the database, other pulls and the hub do is its script of turns; the runs that produce such scripts are `WakeHub`'s.
- `WakeHub.NoLostWakeup`: wakes for the wake-URL dispatcher, the gathering delay and payload sizes are left out; a failed publish puts its keys back, which is no step. A crash takes everything the process held at once.
- `SigninLimit.SigninFailures.Authenticate`: password hashing is a given verdict; emails are compared already normalized, not hashed.
- `UsageEvents.EventsAreConserved`: an insert that fails is logged and its row lost; "written" means handed to the insert. A writer that is gone drops what it held, and flushes then return with no promise.
- `CreditLedger.Credits.AddEntry`: notes come trimmed, and who made the entry is left out.
- `CreditRuns.BalanceIsConserved`: history is the order of commits. The view lists rows by `created_at`, the start of their transaction, so a settings update that waited can be listed before a row it committed after.
- `PollWait.RetriedUnlessACodeAppears`: which network errors the HTTP library reports, and in what words, is a given text; a reason phrase has no digits.
- `PollWait.JitteredMs`: 64-bit floating point is modelled as real numbers.
- `Retention.Prune`: events stamped before the prune began but inserted during it are assumed away; with those, or with a prune that runs longer than the retention window under a steady stream of events, it need not end.
- `Outbound.OnlyAllowedAddressesReached`: parsing URLs and the HTTP client itself are not part of this model; of the client it assumes that the URLs already requested include the first.

Not modelled, because they are input and output, or would add only easy members: HTTP and MCP handlers, OAuth, the CLI's prompts and configuration, environment parsing (`parse_ttl`, `usage_retention_days`), hint texts, logs and metrics, token signing, safety screening, push forwarding, agent rules, the SDKs and the frontend.
