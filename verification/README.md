# Verified model of the autonomous supervisor

The supervisor runs a model-driven coordinator in *ticks*.  All durable state sits in one
SQLite ledger that any number of processes share; a process may die between any two ledger
calls.  This project models the parts whose correctness depends on that:

| module | what it models |
|---|---|
| `Leases` | the lease table and any interleaving of acquire, renew, release and reap by any number of owners, with clock stamps read before the transaction |
| `Runs` | the run table, its interleaved transitions, and crash recovery |
| `Operations` | the reconcile-before-mutate journal: `ensure` step by step, with a crash or an exception possible at every point |
| `UsageEvents`, `UsageAccounting` | `usage_totals`: the window query, the two passes and the recursive walk over usage payloads |
| `Stamps` | the bytewise comparison of event timestamps with the window bound |
| `Budgets` | the budget gate over whole runs of serialized ticks with sliding windows |
| `TickRules`, `TickLog`, `Supervisors` | `tick` and `_review`: checks, exception ladders, final release; what one tick and any sequence of ticks leave in the log |
| `Schedulers` | `loop`: rounds of recovery and ticks, their story, and the backoff laws in the times of the rounds |
| `Failures`, `Backoff` | failure counts, quarantine, and the retry schedule over whole scheduler runs |
| `Jobs` | durable jobs under concurrent pollers |
| `Campaigns` | resumable campaigns over crashes and restarts |
| `RotatingLog` | the size-bounded log file of a child process |
| `StatusParser`, `DiffScanner` | the parser of NUL-separated git status output and the secret scanner of a diff |

Each ledger method is one atomic step on maps.  Where processes interleave, the steps form a
state machine (`Legal`, `Apply`, `Run`) with an invariant proved over all runs; the code that
takes several steps is a class whose methods are proved against the same functions.  Calls
out of the process (git, GitHub, the model, the disk, the clock) are answers of an environment
that may be any value or any exception.

## What the proofs found

* `recover` selects the active runs first and judges them later, each against a clock read
  after the earlier ones were terminated.  A run that keeps beating is therefore spared under
  every interleaving if and only if the silence timeout covers its heartbeat gap *plus* the
  time recovery may take (`Runs.SparedIff`).  `finish_run` has no guard, so recovery can also
  overwrite the success of a run that finished after the selection
  (`Runs.RecoveryOverwritesASuccess`).
* The reviewer has no budget gate of its own.  It is covered by the check made after the
  coordinator's usage is recorded.  The tick's own total is always below its limit then, and
  so are hour and day if that check comes while the record is still in the window.  Whatever
  the timing, the hour (or day) is below its limit at every reviewer launch, and never past it
  by more than one call, if and only if the tick limits cover it: no usage below the tick
  limits reaches the window's (`Budgets.ReviewerAlwaysBelowIff`, `Budgets.AlwaysWithinIff`).
  Tick limits that are not above the window's cover it, as the defaults do
  (src/qas/config.py:112-119); without a cost limit on the window this is necessary as well
  (`Budgets.TokenLimitsDecide`).
* The issue total is checked for the issue the coordinator's call was recorded for.  The
  reviewer's call is charged to the issue the completed result names; that one is below its
  limit at every reviewer launch if and only if it is the same
  (`Budgets.NamedIssueAlwaysBelowIff`).
* `_review` does not catch ValueError or SubprocessError around the reviewer launch, so a tick
  can close normally and leave its reviewer run active until recovery
  (`TickLog.ClosedTickLeavesReviewerActive`).  A review whose `findings` cannot be iterated over raises
  TypeError, which no ladder catches: such a tick has no closing event
  (`TickLog.NotIterableFindingsEscape`).
* The transient-error pattern is applied to every message but those of `QwenUnavailable`; a
  governance violation on a path whose name matches it is filed as a dependency wait
  (`TickLog.ProtectedPathMayReadAsTransient`).
* `git` strips its output, which removes the blank index column of the first status entry: the
  first path then loses its first character (`StatusParser.StripIsHarmlessIff`).
* The diff scanner counts a `\ No newline at end of file` marker as a line and does not see
  added lines that start with `++`; on text without extra line boundaries it agrees with the
  diff exactly when no added line starts with `++` and no hunk adds a line after a marker
  (`DiffScanner.TextExactIffPlain`).
* An unfinished campaign is never announced as finished if and only if no process works on it
  and no checkpoint before its deadline names it (`Campaigns.AbandonedIffNeverFinishes`).  That
  happens to a campaign that is down when its deadline passes, to one that dies before its
  checkpoint is saved, and, at any time, to one that dies after its report was written and its
  checkpoint cleared but before the announcement.
* The window bound is written with six fractional digits or none, events with three; the text
  comparison is still the time comparison, except that an exact tie inside a second is
  dropped (`Stamps.TextTestIsTimeTest`, `Stamps.TieIsDropped`).

## Model

| member | source | states |
|---|---|---|
| `Leases.LeaseTable.AcquireLease` | src/qas/db.py:225-248 | granted exactly when the row is absent or expired at the stamp; otherwise the table is rolled back unchanged; it is the Acquire step of the protocol |
| `Leases.LeaseTable.RenewLease` | src/qas/db.py:250-256 | extends the row if and only if it belongs to the caller and the stamp is before its end; an expired row is left as it is, whoever owns it |
| `Leases.LeaseTable.ReleaseLease` | src/qas/db.py:258-263 | removes only the caller's own row and says whether it did |
| `Leases.LeaseTable.ReapExpiredLeases` | src/qas/db.py:265-273 | reaped and surviving rows partition the table by expiry |
| `Leases.InvRun` | src/qas/db.py:225-273 | over any interleaving, an owner whose last grant has not run out is the owner of the row |
| `Leases.MutualExclusion` | src/qas/db.py:225-273 | at every instant at most one owner per resource has an unexpired grant, however stale the stamps |
| `Leases.ForeignReleaseIsHarmless` | src/qas/db.py:258-263 | a former owner's release never removes the current owner's row |
| `Leases.StampAheadOfClockBreaksExclusion` | src/qas/runtime.py:329-331 | while one owner holds the resource, an acquisition by another makes both hold it if and only if its stamp has reached the end of the first lease and its own lease still runs; such a stamp is ahead of the clock |
| `Leases.HolderContinuity` | src/qas/qwen.py:225-231 | if each renewal takes effect before the last grant runs out, all renewals succeed and all foreign acquisitions fail |
| `Leases.LateRenewalsAreLost` | src/qas/db.py:250-256 | in any interleaving, once the clock has reached the end of a lease its owner never holds it again by renewing, whether or not somebody else took it; only another acquisition helps |
| `Leases.ExpiredLeaseIsTakenOver` | src/qas/db.py:235-248 | an expired lease blocks nobody |
| `Runs.RunTable.StartRun` | src/qas/db.py:188-194 | inserts a starting row unless the id exists |
| `Runs.RunTable.SetRunRunning` | src/qas/db.py:196-201 | only a starting run becomes running, and the row then names the process |
| `Runs.RunTable.HeartbeatRun` | src/qas/db.py:203-208 | only active runs beat |
| `Runs.RunTable.FinishRun` | src/qas/db.py:210-215 | unguarded: overwrites whatever status the row has |
| `Runs.RunTable.FailActiveRun` | src/qas/db.py:217-223 | fails a run only while it is active |
| `Runs.RunTable.JudgeRow` | src/qas/runtime.py:256-281 | abandons a selected run exactly when its heartbeat is older than the silence timeout; reports it hung if its process lives |
| `Runs.RunTable.Recover` | src/qas/runtime.py:252-290 | the run part of recovery: undisturbed, abandons exactly the active runs silent for longer than the timeout, changes no other row, lists each once, and lists as hung exactly those whose recorded process is alive |
| `Runs.RecoverAgain` | src/qas/runtime.py:252-297 | a second recovery finds exactly what became stale in between; at a fixed clock recovery is idempotent |
| `Runs.TerminalNeverActiveAgain` | src/qas/db.py:188-223 | in any interleaving with recovery, a terminal run is never active again |
| `Runs.TerminalRowChangesOnlyByFinish` | src/qas/db.py:210-215 | a terminal row is rewritten only by its owner's finish or by a recovery that selected it earlier |
| `Runs.RecoveryOverwritesASuccess` | src/qas/runtime.py:252-281 | the race in which a finished run is recorded as abandoned |
| `Runs.PunctualRunIsSpared` | src/qas/runtime.py:252-281 | a run that keeps beating is never abandoned if the timeout covers gap and recovery delay |
| `Runs.SlowJudgementCondemns` | src/qas/runtime.py:258-281 | otherwise a schedule exists in which the beating run is abandoned |
| `Runs.SparedIff` | src/qas/runtime.py:252-281 | the two together: spared in every interleaving if and only if gap + delay is within the timeout |
| `Operations.InvRun` | src/qas/operations.py:54-105 | the journal invariant over all crashes, exceptions and repetitions |
| `Operations.AtMostOneEffect` | src/qas/operations.py:54-105 | the remote effect happens at most once, and not at all if it was already there |
| `Operations.ExistingEffectIsNotRepeated` | src/qas/operations.py:59-73 | an effect present before the first call is adopted, never repeated or changed |
| `Operations.JournalAgreement` | src/qas/operations.py:54-96 | an effect made by the runner has a journal row, a completed row has its effect and its id, and at most one of the two completion events exists |
| `Operations.CompletedRowIsFinal` | src/qas/db.py:445-451 | a completed row never changes again |
| `Operations.Runner.Do` | src/qas/operations.py:54-105 | one atomic step of a call, or the death of the process before it |
| `Operations.Runner.Ensure` | src/qas/operations.py:44-105 | every call, cut short anywhere, is a run of the protocol; a completed row is returned as it is; a first look that raises changes nothing; a failed attempt is journalled as interrupted and its row stays or becomes pending; a return after a mutation is announced as completed and one after finding the effect as reconciled, each with the evidence of the look that saw it; only a short lifetime lets the call die |
| `Operations.Runner.AfterLook` | src/qas/operations.py:59-105 | after the first look an effect that exists is adopted, one that does not is made once; every exception is journalled |
| `Operations.Runner.Record` | src/qas/operations.py:85-96 | complete with the evidence at hand, then announce by the event of its kind |
| `Operations.Runner.MutateAndConfirm` | src/qas/operations.py:76-105 | a return means that the mutation took effect once, nothing raised and the effect was confirmed and announced; any exception is journalled and leaves the row |
| `Operations.Runner.ConfirmEffect` | src/qas/operations.py:78-96 | an effect is recorded only if a second reconcile sees it; otherwise the interruption is journalled |
| `Operations.Runner.JournalInterruption` | src/qas/operations.py:97-105 | an exception is journalled as an interruption and re-raised; row and remote side stay as they are |
| `UsageEvents.Totals.Add` | src/qas/db.py:582-593 | a number under one of the three input keys is added to the input, under one of the three output keys to the output, under one of the two total keys to the total, and to nothing else |
| `UsageEvents.Totals.Collect` | src/qas/db.py:579-598 | the mutating walk adds exactly the tokens found anywhere in the payload |
| `UsageEvents.Totals.CollectFields` | src/qas/db.py:580-595 | the same for the members of an object |
| `UsageEvents.Totals.CollectItems` | src/qas/db.py:596-598 | the same for the items of a list |
| `UsageEvents.Totals.CountCall` | src/qas/db.py:621-622 | one call and its tokens |
| `UsageEvents.SpellingDoesNotMatter` | src/qas/db.py:582 | a key spelled with capitals or dashes counts as the same key |
| `UsageEvents.UsageObjectIsRead` | src/qas/db.py:584-595 | an object that reports input, output and total tokens is charged those numbers, also when it is nested under any key |
| `UsageEvents.EventIsAttributed` | src/qas/db.py:605-616 | a review is charged to the reviewer and a completion to the coordinator whatever role they show; the issue of the event comes before the one of its result |
| `UsageAccounting.Query` | src/qas/db.py:547-562 | the rows of the window and the tick, in order |
| `UsageAccounting.RowsAre` | src/qas/db.py:547-562 | the rows are the charge events of the tick that are not earlier than the bound, the bound itself included |
| `UsageAccounting.FirstPass` | src/qas/db.py:564-577 | the calls recorded in the window and the ticks that name the issue |
| `UsageAccounting.RecordedCalls` | src/qas/db.py:576-577 | the calls the first pass collects are those of the usage records among the rows |
| `UsageAccounting.NamedTicks` | src/qas/db.py:570-575 | the ticks it collects are those of the rows that name the issue |
| `UsageAccounting.ChargeRow` | src/qas/db.py:600-622 | a row is charged unless it is no object, repeats a recorded call, or belongs to another issue |
| `UsageAccounting.SecondPass` | src/qas/db.py:600-622 | the loop sums exactly the counted rows |
| `UsageAccounting.UsageTotals` | src/qas/db.py:539-626 | the whole method computes the fold, with the total raised to input + output |
| `UsageAccounting.OneCallIsReported` | src/qas/db.py:539-626 | a log of one recorded call reports its charge, the total raised to input + output, when window, tick and issue are its own, and nothing otherwise |
| `UsageAccounting.FoldIsCallSum` | src/qas/db.py:564-622 | the deduplicating fold equals the sum over the calls with an event in the window |
| `UsageAccounting.DeduplicatedAccounting` | src/qas/db.py:539-626 | on every log the supervisor can write, usage is the plain sum over model calls, each once, even when only its completion event is in the window |
| `UsageAccounting.LaterWindowNeverLarger` | src/qas/runtime.py:131-134 | totals only shrink as the window starts later, so the hour never exceeds the day |
| `Stamps.DigitsOrder` | src/qas/models.py:11-12 | bytewise order of equally long decimal numerals is numeric order |
| `Stamps.FractionOrder` | src/qas/db.py:551-553 | three fractional digits against six compare as time |
| `Stamps.TextTestIsTimeTest` | src/qas/db.py:551-553 | the text test keeps exactly the events later than the bound, and ties on a whole second |
| `Stamps.TextTestIsThreshold` | src/qas/runtime.py:130-134 | on the microsecond clock the test is a threshold on the event's millisecond stamp |
| `Stamps.TieIsDropped` | src/qas/db.py:551-553 | an event exactly at a fractional bound is left out |
| `Budgets.BudgetUsage` | src/qas/runtime.py:127-142 | hour, day, tick and, if known, issue usage of the same log |
| `Budgets.AssertBudgets` | src/qas/runtime.py:144-175 | passes if and only if the usage of the last hour is below the hour limit, of the last day below the day limit, of the tick below the tick limit and, with an issue, of the issue below the issue limit; otherwise names the first exhausted scope in that order |
| `Budgets.BelowMeans` | src/qas/runtime.py:121-175 | below a limit: the reported total is below the token limit, and input and output tokens at their prices per million cost less than the cost limit |
| `Budgets.RecordReadsBack` | src/qas/runtime.py:186-193 | the record a tick writes is read back by the accounting as that call, with the tokens of its payload |
| `Budgets.CompletionReadsBack` | src/qas/runtime.py:415-426 | a completion event is read back as a repetition of the call's charge |
| `Budgets.ScopeIsLiveSum` | src/qas/runtime.py:130-142 | what the gate reads in a window is the sum of the live calls |
| `Budgets.InvRun` | src/qas/runtime.py:352-384 | exposure to a window (live calls and the one whose completion is still to come) stays within one call of the limit, unless a check comes after the record has left a window the tick limits do not cover |
| `Budgets.CoordinatorLaunchIsWithinBudget` | src/qas/runtime.py:352-370 | at every coordinator launch of every run the usage of the last hour, the last day, the tick and the issue is below the hour, day, tick and issue limit |
| `Budgets.ReviewerLaunchIsWithinBudget` | src/qas/runtime.py:474-487 | at every reviewer launch the tick total is below its limit, and so are hour and day if the tick limits cover them or the checks are prompt |
| `Budgets.OvershootBound` | src/qas/runtime.py:177-194 | likewise hour and day exceed limit - 1 at every moment by at most max(total, input + output) of the last call, and the cost limit by less than its cost |
| `Budgets.TickOvershootBound` | src/qas/runtime.py:623-633 | the same for the tick's own total, without condition |
| `Budgets.CheckedIssueIsBelowAtReview` | src/qas/runtime.py:375-384 | at every reviewer launch the issue for which the coordinator's call was recorded and checked is below its limit, whatever the completion names |
| `Budgets.RenamedIssueOvershoots` | src/qas/runtime.py:398-399 | for any other issue a run in which the completion names it and the reviewer is launched with its limit reached |
| `Budgets.NamedIssueAlwaysBelowIff` | src/qas/runtime.py:398-426 | over all runs the issue the completion names is below its limit at the reviewer launch if and only if it is the checked one |
| `Budgets.TokenLimitsDecide` | src/qas/config.py:112-119 | for a window without a cost limit, covering means a tick token limit not above its own |
| `Budgets.SmallerTickLimitCovers` | src/qas/config.py:112-119 | tick limits that are not above a window's cover it |
| `Budgets.CompletionIsCountedAgain` | src/qas/runtime.py:415-426 | a completion event alone brings its call back into a window its record has left |
| `Budgets.LateCheckOvershoots` | src/qas/runtime.py:378-384 | any usage below the tick limits but not below the window's gets past a check two days late, and the reviewer is launched with the window's limit reached |
| `Budgets.ReviewerCallBreaksBound` | src/qas/runtime.py:615-633 | after that even a free reviewer call breaks the overshoot bound |
| `Budgets.ReviewerAlwaysBelowIff` | src/qas/runtime.py:474-487 | over all runs every reviewer launch finds the window below its limit if and only if the tick limits cover it |
| `Budgets.AlwaysWithinIff` | src/qas/runtime.py:177-194 | over all runs the overshoot is less than one call if and only if the tick limits cover the window |
| `TickRules.GatesFaultIff` | src/qas/runtime.py:451-472 | the gate loop has no fault if and only if every configured gate passed |
| `TickRules.CriticalCountIsMultiplicity` | src/qas/runtime.py:651-656 | the critical count is the number of critical findings in the list |
| `TickRules.FinishedIffFullyGated` | src/qas/runtime.py:341-502 | for all environments a tick ends without exception if and only if it was launchable, the coordinator delivered, and the result is fully gated |
| `TickRules.FinishedInFull` | src/qas/runtime.py:344-502 | the same spelled out answer by answer: exit codes, protected paths, unchanged head and snapshot without a mutation; with one an empty secret scan, every gate passed and, if reviews are enabled, a pass verdict with at most the allowed number of critical findings from a session of its own |
| `TickLog.TickClosesOnce` | src/qas/runtime.py:491-601 | a tick leaves exactly one closing event, none only if an exception escapes the ladders |
| `TickLog.EndingByClass` | src/qas/runtime.py:503-592 | how each class of exception ends a tick and which event says so; saving the worktree may lose the ending |
| `TickLog.EventsAreHonest` | src/qas/runtime.py:442-472 | an event that reports a scan, a gate or a review as passed says what was found, and one that reports it as failed as well |
| `TickLog.EveryTickClosesOnce` | src/qas/runtime.py:326-601 | the same for every tick of any sequence of ticks on one log |
| `TickLog.FinishedTicksWereFullyGated` | src/qas/runtime.py:491-502 | every `tick_finished` in any log is the only closing event of a tick with a clean worktree, no protected change, and either nothing changed or scan, gates and an independent review passed |
| `TickLog.CoordinatorLeftActiveIff` | src/qas/runtime.py:368-390 | a started coordinator run stays active exactly when the model call or its charge raised something unlisted |
| `TickLog.ReviewerLeftActiveIff` | src/qas/runtime.py:613-639 | a started reviewer run stays active exactly for the exceptions `_review` does not catch |
| `TickLog.ClosedTickLeavesReviewerActive` | src/qas/runtime.py:614-620 | after a ValueError or a SubprocessError at the reviewer launch the tick closes as a wait or a failure and its reviewer run stays active |
| `TickLog.NotIterableFindingsEscape` | src/qas/runtime.py:650-660 | findings that cannot be iterated over end a tick without closing event, however well everything else went |
| `TickLog.ViolationInLog` | src/qas/runtime.py:547-554 | after the tick a violation is in the log exactly for policy violations whose message does not read as transient |
| `TickLog.ProtectedPathMayReadAsTransient` | src/qas/runtime.py:523-554 | a governance violation is a recorded violation and a failure exactly when its message does not read as transient |
| `Supervisors.Supervisor.Append` | src/qas/db.py:161-186 | INSERT OR IGNORE on the operation key |
| `Supervisors.Supervisor.Happen` | src/qas/qwen.py:225-242 | one such step on run row and leases; a heartbeat renews the lease of the tick only before its end |
| `Supervisors.Supervisor.Prepare` | src/qas/runtime.py:345-366 | raises exactly the first fault before the run is started; a dirty tree needs the matching checkpoint |
| `Supervisors.Supervisor.RunModel` | src/qas/qwen.py:225-248 | any sequence of launches, heartbeats, recoveries, reaps and foreign acquisitions and releases changes only this run's row, as their order says, and gives no other lease to the tick |
| `Supervisors.Supervisor.Coordinate` | src/qas/runtime.py:370-426 | first fault, events and run status of the coordinator part |
| `Supervisors.Supervisor.CheckResult` | src/qas/runtime.py:391-414 | the checks on the coordinator's result, in order |
| `Supervisors.Supervisor.Verify` | src/qas/runtime.py:431-472 | the secret scan of the diff, then the gates |
| `Supervisors.Supervisor.RunGates` | src/qas/runtime.py:451-472 | gates run in order up to the first fault, each leaving its event |
| `Supervisors.Supervisor.ReviewResult` | src/qas/runtime.py:603-675 | what `_review` raises or returns, its events, and the status it leaves the reviewer run in |
| `Supervisors.Supervisor.JudgeReview` | src/qas/runtime.py:640-660 | favourable if and only if the verdict is a pass and at most the allowed number of findings is critical, none with an allowance of zero; a failed process, a missing or a reused session raises |
| `Supervisors.Supervisor.RequireReview` | src/qas/runtime.py:474-489 | a mutation cannot opt out, and an unfavourable review is a violation |
| `Supervisors.Supervisor.Launch` | src/qas/runtime.py:368-489 | the try block once the run is started |
| `Supervisors.Supervisor.Work` | src/qas/runtime.py:344-502 | the whole try block raises exactly the first fault; success clears the recovery checkpoint |
| `Supervisors.Supervisor.Recover` | src/qas/runtime.py:245-297 | expired leases are reaped, exactly the active runs silent for longer than the timeout abandoned, and the worktree checkpoint is replaced by what was seen if and only if there were any |
| `Supervisors.SavedTreeIsResumedIff` | src/qas/runtime.py:353-363 | a dirty tree is resumed if and only if it is, at the same head, the one that was saved |
| `Supervisors.InterruptedWorkIsResumed` | src/qas/runtime.py:299-308 | after a crash or a failed tick, a tick that finds the tree as it was saved is prepared as if the tree were clean |
| `Supervisors.Supervisor.SaveWorktree` | src/qas/runtime.py:299-308 | a dirty tree is stored, a clean one clears the checkpoint, a git failure leaves it |
| `Supervisors.Supervisor.HandlePause` | src/qas/runtime.py:503-522 | a safety pause or an exhausted budget postpones the next tick by the longer of the two waits |
| `Supervisors.Supervisor.HandleTransient` | src/qas/runtime.py:533-546 | a transient failure waits without counting a failure |
| `Supervisors.Supervisor.HandlePermanent` | src/qas/runtime.py:547-592 | any other failure is recorded, counted and backed off |
| `Supervisors.Supervisor.CountFailure` | src/qas/runtime.py:557-591 | one more identical failure, of scope host exactly for missing Qwen, OS and subprocess errors, quarantined from the threshold on; the next tick waits the delay of the new count |
| `Supervisors.Supervisor.HandleFailure` | src/qas/runtime.py:523-592 | the second ladder: transient or permanent |
| `Supervisors.Supervisor.Handle` | src/qas/runtime.py:503-592 | which ladder handles what |
| `Supervisors.Supervisor.Catch` | src/qas/runtime.py:503-530 | a class no ladder lists passes through and changes nothing |
| `Supervisors.Supervisor.Contain` | src/qas/runtime.py:344-592 | try block and ladders: ending, events, run statuses and what later ticks will find |
| `Supervisors.Supervisor.HoldLease` | src/qas/runtime.py:333-601 | the tick from its lease to the release, whatever happens in between |
| `Supervisors.Supervisor.Tick` | src/qas/runtime.py:326-601 | busy means nothing happens; otherwise trace, ending, run statuses and memory follow from the environment, one closing event unless an exception escapes, a recorded violation and runs left active exactly for the faults that explain them, and no lease of the tick remains; a mutation finishes under review only with a pass verdict and no more critical findings than allowed |
| `Supervisors.Supervisor.LoopOnce` | src/qas/runtime.py:684-690 | a tick starts exactly when every quarantined failure is one of work and the retry time has come; afterwards failures, retry time and checkpoint are what its ending says |
| `Schedulers.TickRefinesScheduler` | src/qas/runtime.py:507-591 | what a tick remembers is what the scheduler steps of its ending do, with the times at which it counts and closes |
| `Schedulers.RoundRefinesScheduler` | src/qas/runtime.py:683-690 | however a round ends, its scheduler steps are legal and give its failures, its retry time and the date of a counted failure |
| `Schedulers.TickIfDue` | src/qas/runtime.py:684-690 | a tick exactly when every quarantined failure is one of work or the one just reset and the retry time has come; failures and retry time afterwards as its ending says |
| `Schedulers.RunRound` | src/qas/runtime.py:683-690 | one round: the tick finds the checkpoint recovery saved if it abandoned a run, and the round is an entry of the story with its fault and ending explained |
| `Schedulers.NextRound` | src/qas/runtime.py:682-690 | one more round of the story, with a monotone clock |
| `Schedulers.Loop` | src/qas/runtime.py:677-700 | the story tells how every round ended until an exception escapes; failures and retry time are those of its last state, which a legal scheduler run reaches, so a next loop can go on |
| `Schedulers.RetryTimeNeverMovesBack` | src/qas/runtime.py:682-690 | from round to round the retry time never moves back |
| `Schedulers.PenaltyIsServed` | src/qas/runtime.py:684-690 | after a tick closed as paused, waiting or failed no later round ticks before its closing time plus both configured pauses, the retry base, or the delay of its count |
| `Schedulers.FirstFailureIsKept` | src/qas/runtime.py:563-570 | the date of the first failure since a reset stays that of the round that counted it |
| `Schedulers.FailuresAreSpaced` | src/qas/runtime.py:587-591 | between the times at which two rounds counted the first and the k-th failure of a fingerprint, without a reset in between, lie at least the first k - 1 delays |
| `Failures.FailureTable.RecordFailure` | src/qas/db.py:275-314 | counts one more and quarantines from the threshold on |
| `Failures.FailureTable.Unquarantine` | src/qas/db.py:485-491 | resets only a quarantined row |
| `Failures.CountsAndQuarantine` | src/qas/db.py:275-314 | over any sequence the count is the number of failures since the last effective reset, and quarantined means at least the threshold |
| `Failures.LoopIsHeldUpIff` | src/qas/runtime.py:686-690 | over any sequence of failures and resets the loop is held up exactly by a fingerprint that reached the threshold since its reset and whose last failure was one of the host |
| `Backoff.CheckpointIncreases` | src/qas/runtime.py:587-591 | every write of the retry time moves it strictly forward |
| `Backoff.CheckpointNeverMovesBack` | src/qas/runtime.py:682-690 | over whole scheduler runs it never moves back |
| `Backoff.NoTickStartsEarly` | src/qas/runtime.py:684-690 | no tick runs before the retry time |
| `Backoff.KthFailureIsLate` | src/qas/runtime.py:587-591 | the k-th failure of a fingerprint since its reset comes at least the sum of the first k - 1 delays after the first |
| `Backoff.TotalDelayClosedForm` | src/qas/runtime.py:587-590 | that sum in closed form for every k: the doubling delays the maximum does not cut, then the maximum |
| `Jobs.TerminalIsFinal` | src/qas/db.py:379-387 | over any interleaving a job leaves running at most once |
| `Jobs.PollersAgree` | src/qas/jobs.py:140-171 | all polls that return a terminal record return the same one |
| `Jobs.OutcomesAreJustified` | src/qas/jobs.py:147-163 | succeeded means the exit file holds 0, only a success carries the code 0, and any recorded code is the one in the file |
| `Jobs.LateWasSeen` | src/qas/jobs.py:158-159 | a job counts as late only from a step of the run at which a poll read the clock beyond its maximum |
| `Jobs.ExpiredWasOverdue` | src/qas/jobs.py:158-163 | expired means that there is such a step |
| `Jobs.AdmissionIsBounded` | src/qas/jobs.py:65-70 | serialized starts among any polls respect the limit and keep one running job per name |
| `Jobs.JobTable.FinishJob` | src/qas/db.py:379-387 | only a running job is finished |
| `Jobs.JobTable.StartJob` | src/qas/jobs.py:60-104 | each refusal exactly for its reason; a start keeps the limit and the unique name |
| `Jobs.JobTable.PollJob` | src/qas/jobs.py:140-171 | the exit file wins over the clock, the clock over liveness; a terminal record is returned as it is |
| `Campaigns.DeltaIsCount` | src/qas/campaign.py:187-188 | a difference of two counter readings is the number of events between them |
| `Campaigns.CountIsNumberOfPlaces` | src/qas/campaign.py:187-188 | a counter is the number of places in the log at which the kind occurs |
| `Campaigns.InvRun` | src/qas/campaign.py:103-139 | checkpoint, running process and log agree over all crashes and restarts |
| `Campaigns.ReportSpansTheCampaign` | src/qas/campaign.py:184-224 | every reported delta is the number of events of its kind since the campaign first started |
| `Campaigns.SameCampaignUntilDeadline` | src/qas/campaign.py:104-120 | before the deadline every incarnation shares one id, baseline and deadline |
| `Campaigns.FinishedAtMostOnce` | src/qas/campaign.py:226-231 | the finish event is appended at most once per id |
| `Campaigns.StillFinishes` | src/qas/campaign.py:91-232 | from every other state of an unfinished campaign some run announces it |
| `Campaigns.AbandonedIffNeverFinishes` | src/qas/campaign.py:82-88 | an unfinished campaign is never announced if and only if no process works on it and no checkpoint before its deadline names it |
| `Campaigns.DownAtDeadlineIsAbandoned` | src/qas/campaign.py:82-88 | a campaign that is down when its deadline passes |
| `Campaigns.UnsavedIsAbandoned` | src/qas/campaign.py:122-138 | a campaign that dies before its checkpoint is saved |
| `Campaigns.ClearedIsAbandoned` | src/qas/campaign.py:225-231 | a campaign that dies with its report written and its checkpoint cleared, before the announcement |
| `Campaigns.Campaigner.Do` | src/qas/campaign.py:91-232 | one atomic step, or the death of the process before it |
| `Campaigns.Campaigner.RunCampaign` | src/qas/campaign.py:91-232 | resumes the unfinished campaign before its deadline or starts a new one; a returned report counts from the original start, and the campaign is finished once and cleared; if the process dies, the checkpoint is the old one, the new one with its deadline at the start plus the duration, or cleared |
| `Campaigns.Campaigner.Resume` | src/qas/campaign.py:104-138 | the checkpoint before its deadline is taken up unchanged; otherwise a new campaign is saved with its deadline, baseline and minimum |
| `Campaigns.ReportInFull` | src/qas/campaign.py:190-222 | which event each reported number counts, and when the campaign has passed |
| `Campaigns.Campaigner.Loop` | src/qas/campaign.py:164-182 | the scheduler loop does not touch the campaign |
| `Campaigns.Campaigner.Close` | src/qas/campaign.py:184-232 | report, clear, announce |
| `RotatingLog.RotatingFile.RotateOutput` | src/qas/process.py:85-94 | on any directory every name moves up by one over the oldest backup |
| `RotatingLog.RotatingFile.Reopen` | src/qas/process.py:207-210 | a rotation starts an empty log and drops only the oldest file of a full chain |
| `RotatingLog.RotatingFile.WriteRecord` | src/qas/process.py:211-213 | the open log grows by one record |
| `RotatingLog.RotatingFile.WriteLog` | src/qas/process.py:203-213 | the files and the byte counter follow the specification of one write: a record that does not fit next to others opens a new log and the old one becomes the newest backup |
| `RotatingLog.WriteAppends` | src/qas/process.py:203-213 | one write appends its record and drops at most the oldest backup |
| `RotatingLog.WriteAllSound` | src/qas/process.py:203-213 | contiguous backups, at most count + 1 files, each within the limit or a single record, no early rotation |
| `RotatingLog.LogIsSuffixOfStream` | src/qas/process.py:85-94 | read oldest first, the files are a record-aligned suffix of everything written, and records are lost only when all backups are in use |
| `StatusParser.ChangedPaths` | src/qas/policy.py:43-63 | the loop computes the parsed paths and adds those of the diff |
| `StatusParser.ParseInvertsRender` | src/qas/policy.py:45-58 | parsing the rendering of any entries gives exactly their paths |
| `StatusParser.EntryIsRead` | src/qas/policy.py:47-58 | a rename or copy gives both its paths and any other entry its path after two columns and a blank, backslashes turned into slashes and nothing else changed |
| `StatusParser.ParseAfterStrip` | src/qas/policy.py:40-45 | what the parser returns after the strip, blank index column or not |
| `StatusParser.StripIsHarmlessIff` | src/qas/policy.py:40-45 | after the strip the paths are right if and only if the first index column is not blank |
| `StatusParser.UnstagedChangeIsMisread` | src/qas/policy.py:40-53 | one modified unstaged file is reported without its first character |
| `DiffScanner.SplitInvertsJoin` | src/qas/policy.py:84 | splitting the joined lines gives them back when none contains a line boundary |
| `DiffScanner.BoundaryEndsLine` | src/qas/policy.py:84 | each line boundary of `splitlines` ends a line |
| `DiffScanner.ReturnAndNewlineEndOneLine` | src/qas/policy.py:84 | a carriage return and its newline end only one |
| `DiffScanner.MatchPatterns` | src/qas/policy.py:92-96 | exactly the patterns that match are reported, each once, in their order, at the file and line of the scan |
| `DiffScanner.ScanAddedSecrets` | src/qas/policy.py:80-100 | the loop over the split text computes the scan with its file and line tracking |
| `DiffScanner.HeaderGivesNewStart` | src/qas/policy.py:88-91 | the first number after a plus in a hunk header, with or without counts, is the new start line |
| `DiffScanner.PlainDiffIsExact` | src/qas/policy.py:80-100 | on a plain diff every matching added line is found with its file and true line number, and nothing else |
| `DiffScanner.ReportedIffAdded` | src/qas/policy.py:80-100 | a finding is reported from a plain diff if and only if some hunk adds a line that matches its pattern, under the name of the file and the number the line has in the new file |
| `DiffScanner.ExactIffPlain` | src/qas/policy.py:80-100 | on the printed lines the scanner agrees with the structured diff for every set of patterns if and only if the diff is plain |
| `DiffScanner.TextExactIffPlain` | src/qas/policy.py:80-100 | the same on the text of the diff, with or without its last newline, when no name or line contains another line boundary |

## Left out

- SQLite itself: each ledger method, or its single transaction, is one atomic step; ledger writes succeed.
- Process launching, signals, process trees, reader threads, lock files and the watchdog: they are answers of the environment.
- Git, the GitHub CLI, the HTTP server, the command line, configuration loading and the governance audit.
- Regular expressions, path patterns and hashes are uninterpreted; JSON is a datatype with integer numbers; letters outside ASCII are not lower-cased; a role that is not text is not modelled.
- Floating-point rounding of costs and clocks: they are exact reals or integers.
- Clocks move forward; a clock stepping back is covered only as a stale lease stamp.
- Two concurrent `ensure` calls on one key and two concurrent `start_job` calls: both check and then act, so calls on one key and job starts are serialized here.
- A remote effect that becomes visible only after a delay, is removed again, or is made by somebody else during the call.
- Whether `failed` is the true outcome of a job: the exit file may be read while empty, or appear after the check. A job process launched just before its insert is lost, and lookup by name, are not modelled either.
- The budget answers inside a tick: `TickRules` takes them from the environment, `Budgets` says what they are.
- Events of other processes between those of a tick, in `TickLog`; the run and the lease of the tick are exposed to others while a model runs.
- `last_reconciliation`, the issue number carried into failures, artifact retention, disk checks, prompts and the extraction of structured output.
- The wall-clock duration, total usage and quarantine lists in a campaign report are plain readings; the chaos and deadline threads act through the events they append.
- A log file that already exists when it is opened, and empty records, which the writer never produces.
- DiffScanner.TextExactIffPlain: names and lines without any of the other boundaries of `splitlines`; what `strip` takes from the end of a diff is at most the last newline; headers of deleted files and other extended headers are not printed.
- Whitespace beyond ASCII in the `strip` of a status.
- Schedulers.Loop: ticks start only through the loop; a crash between counting a failure and writing the retry time is not modelled, any other crash of a tick is an escape; an operator resets failures between recovery and the tick of a round.
- The events recovery appends (expired leases, hung and recovered runs).
- Negative token counts in a usage report: the budget bounds are for non-negative ones.
- Campaigns.SameCampaignUntilDeadline: one process runs the campaign at a time, as the scheduler lock ensures for the loop.
