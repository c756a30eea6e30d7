# Verified model of PlasmaTop

PlasmaTop is a system monitor daemon with a Plasma applet. This project models its deterministic scheduler
and the small protocols and transformations around it, and proves what they promise, for all inputs, all
event sequences and all interleavings. `dafny verify dfyconfig.toml` checks everything.

## What is modelled

- **Scheduler** (`Scheduler*.dfy`). `SchedulerSpec` gives every event arm as a function of the state;
  `SchedulerMachine` is the scheduler itself, one object whose methods update its fields in place and loop as
  the source does, each proved to carry out its function (`SchedulerLoops` holds what its loops keep). The
  results are about runs: one outstanding run per owner from start to acknowledgement, results recorded once
  and never after a cancellation, nothing lost or counted twice on the display clock, wake-ups strictly
  later, history deadlines on their grid with a sample behind them; every due or newly wanted job served
  (`SchedulerPending`), every publication on the surfaces it is meant for and acknowledged once
  (`SchedulerSurfaces`), and every other action exactly foreseen (`SchedulerDeeds`).
- **Applet bus** (`Outbox`, `Publisher`). Two protocols as state machines over atomic steps: sends that race
  with the retirement of their connection, and dirty flags with a single stored wake-up.
- **Command output** (`OutputBudget`). Two streams in one buffer, the second shifted and cut in place.
- **Monospace layout** (`Html`, `HtmlClosure`, `RenderModel`, `Mono`, `MonoWidth`, `MonoText`, `Grouping`). Visible width
  of HTML, rows padded to one width, what they show and where, rows grouped into blocks and back.
- **Terminal wrapping** (`Terminal`, `TerminalText`, `TerminalWrap`, `TerminalBreaks`, `TerminalStrip`). Colour sequences
  are control sequences as in section 5.4 of ECMA-48.
- **System bus** (`SystemBus`), **table merge** (`DeepMerge`), **notification latch** (`Latch`), **sleep
  signals** (`SleepEvents`), **tooltip editor** (`Tooltip`, `TooltipLens`), **shell quoting** (`ShellJoin`,
  against sections 2.2.1 to 2.2.3 and 2.3 of the Shell Command Language in POSIX.1-2017).

Events carry their times, bus replies and completions as inputs; clocks, files and sockets are not modelled.
In `SchedulerMachine`, fields that change together (settings, runs, view, paint, feed, handshake) are grouped
into one record-valued field each.

## Where a promise has a condition

Each has a lemma that says exactly when the promise holds and, where that does not show one, another with an
input that breaks it.

- Before the first paint the display deadline can lie in the past, and the wake-up asked for with it; the first
  paint can also put a fast job where the time has passed (`WakeIsStrictlyLater`, `StartupCanWaitInThePast`,
  `FastJobFallsBehind`).
- A new emitter announces what is flagged when it starts, not what the old one was signalling
  (`SurvivesReplacementIff`).
- A result can be rejected after time has been processed, when it is for page work whose demand ends at that
  very instant (`LateRejectionIff`, `LateRejectionHappens`).
- A call on a connection attempt that never owned the bus name can follow the loss of a later connection
  (`EventsAreOrdered`, `UnownedConnectionMaySpeakLate`).
- Two pairs of unequal width overflow a row (`TwoPairRowIsExactIffHalvesFit`, `LopsidedPairsOverflow`).
- The width of a fragment can depend on what follows it (`WidthAddsUpIff`, `OpenTextIsNotAdditive`).
- Removing colour sequences can form new ones (`StrippingIsStableIff`, `StrippingTwiceDiffers`).
- Merging tables is not associative (`MergeAssociatesIff`, `MergeIsNotAssociative`).
- A tooltip section called `order` is lost by an edit, or stops it (`SectionsAreKeptIff`, `SectionCalledOrderIsLost`,
  `StoppedIff`).
- A due job is not started while its retry is still ahead (`DueJobIsServed`).
- Empty arguments are lost by shell quoting (`RoundTripIff`).

For job lists of any shape, `AbsenceKeepsSourcedUnlessChained` and `ReloadKeepsSourcedIffSourcesStay` say when a
pending history keeps a sampled source; the lists that the catalogue builds never let one lose it
(`CataloguedRunKeepsSourced`). Likewise the exception in `NoResumeIsLostIff` does not occur in the daemon, whose
scheduler is suspended by drained sleep signals only (src/daemon/async_loop/control.rs:126-134).

## Model

| member | source | states |
|---|---|---|
| `SchedulerRuns.HandleKeepsInvariant` | src/scheduler/machine.rs:151-329 | one event keeps the scheduler's invariant, moves time and run numbers forward only, and the actions it hands out account for every run that begins or ends |
| `SchedulerRuns.RunKeepsInvariant` | src/scheduler/machine.rs:151-329 | the invariant holds after every sequence of events, accepted or rejected; time never goes back and run numbers are never reused |
| `SchedulerRuns.StoppedForever` | src/scheduler/machine.rs:153-161 | once an accepted shutdown or critical failure has stopped the scheduler, no sequence of events changes it, is accepted or has an effect |
| `SchedulerRejections.RejectionIsSilentIff` | src/scheduler/machine.rs:153-189 | a rejected event has left the state as it was exactly when a guard turned it away, and then it causes no action |
| `SchedulerRejections.LateRejectionIff` | src/scheduler/machine.rs:252-284 | an event that passes the guards is rejected exactly when it is the result of page work whose demand ends at that very instant with the tooltip's grace period |
| `SchedulerRejections.LateRejectionIsHeld` | src/scheduler/machine/demand.rs:262-273 | such a result closes nothing: its run is being cancelled from then on and still holds its owner |
| `SchedulerRejections.LateRejectionHappens` | src/scheduler/machine.rs:265-272 | a run of three events from the initial state reaches such a result |
| `SchedulerRejections.AcceptedIff` | src/scheduler/machine.rs:151-329 | an event is accepted exactly when it is not from the past, the scheduler has been started, or is by it, and not stopped, and what it refers to is current: a newer configuration or inventory, a run that is not over, a publication still to be acknowledged |
| `SchedulerRejections.NewerIsAcceptedIff` | src/scheduler/machine.rs:163-185 | over every run, a configuration or inventory is accepted exactly when its generation is above that of the last one accepted |
| `SchedulerRejections.ResultIsAcceptedIff` | src/scheduler/machine.rs:252-276 | over every run, a result is accepted exactly when an observer's ledger has its run, but for page work that loses its demand at that very instant |
| `SchedulerRuns.LedgerIsOutstanding` | src/scheduler/machine.rs:546-567 | what an observer of start actions and accepted results believes outstanding is exactly what the scheduler holds, in flight or cancelling |
| `SchedulerRuns.OneRunPerOwner` | src/scheduler/machine/publication.rs:38-66 | over every run two outstanding runs never share an owner or a run number, the owner table is exactly the ledger, and nothing is in flight while suspended or stopped |
| `SchedulerRuns.OwnerHeldUntilClosed` | src/scheduler/machine.rs:645-654 | once started, a run keeps its owner occupied until an accepted result or acknowledgement names that very run, cancelled or not |
| `SchedulerRuns.ResultCountsOnce` | src/scheduler/machine.rs:546-567 | over every run a ticket's result is recorded at most once |
| `SchedulerRuns.NoResultAfterCancellation` | src/scheduler/machine.rs:725-732 | no result is recorded for a run started before an accepted suspend, shutdown, critical failure, configuration change or inventory change in between |
| `SchedulerResults.OnlyResultsTouchSamples` | src/scheduler/machine.rs:569-601 | an event that neither reloads the jobs nor records a result leaves every sample, failure count and baseline request alone and moves or adds no retry; only a resume lets counters ask for a baseline |
| `SchedulerResults.ResultChangesOnlyItsJob` | src/scheduler/machine.rs:569-633 | a recorded result changes exactly its own job's sample, failure count, retry (the backoff after a failure, the base delay after a baseline, none otherwise) and baseline request; a confirmed absence also takes the samples of the histories drawn from that job |
| `SchedulerResults.HandleKeepsHistory` | src/scheduler/machine.rs:501-543 | one event keeps every pending history deadline on its job's grid, pending since no later than the deadline, the deadline no later than now and before the next one |
| `SchedulerResults.RunKeepsHistory` | src/scheduler/machine.rs:501-543 | so does every run of events with well-formed job lists |
| `SchedulerSources.QuietKeepsSourced` | src/scheduler/machine.rs:513-527 | every event but a reload or a confirmed absence keeps a sample behind each pending history deadline |
| `SchedulerSources.AbsenceKeepsSourcedUnlessChained` | src/scheduler/machine.rs:612-633 | a confirmed absence keeps it exactly unless a history that is or falls due at that time is drawn from a history drawn from the absent job, on the state before the event |
| `SchedulerSources.ReloadKeepsSourcedIffSourcesStay` | src/scheduler/machine/demand.rs:12-84 | a configuration or inventory change keeps it exactly when each pending history that stays keeps its source, unchanged and sampled |
| `SchedulerSources.StartedHistoryIsSourced` | src/scheduler/machine/publication.rs:4-67 | every history run that starts carries a deadline on its own grid, not in the future, and its source has a sample; no other run carries one |
| `SchedulerSources.PendingAfterTime` | src/scheduler/machine.rs:501-543 | which histories are pending once the time has been processed, on the state before |
| `SchedulerSources.DispatchSourced` | src/scheduler/machine/publication.rs:4-67 | dispatch neither repairs nor breaks the sourcing of pending deadlines |
| `SchedulerCatalogue.CataloguedRunKeepsSourced` | src/sensors/catalog.rs:75-181 | over every run of job lists such as the catalogue builds (each job once, each history drawn from a listed job that is itself drawn from nothing) every pending history deadline has a sample behind it: no absence and no reload ever leaves one without |
| `SchedulerCatalogue.RunKeepsSourced` | src/scheduler/machine.rs:612-633 | over any run in which no listed job is drawn from a drawn one, only reloads that drop a source can do so |
| `SchedulerCatalogue.HandleKeepsSourced` | src/scheduler/machine.rs:612-633 | the same for one event: an absence never leaves a pending history without a sample when no job is drawn from a drawn one |
| `SchedulerCatalogue.StartIsSourced` | src/scheduler/machine.rs:377-417 | a start leaves every pending history deadline, there being none, sourced |
| `SchedulerCatalogue.ReloadListsJobs` | src/scheduler/machine/demand.rs:12-84 | after an accepted start or reload the table holds exactly the listed jobs |
| `SchedulerDispatch.DispatchStartsTheBest` | src/scheduler/machine/publication.rs:15-67 | dispatch starts, for each free owner that a startable job wants, exactly the best-ranked such job under a fresh run number, and changes nothing else |
| `SchedulerPending.PendingThenIff` | src/scheduler/machine.rs:450-544 | once the time has been processed a job is pending exactly when it was and still may be, when the ending grace period left it demanded without a sample, or when, demanded, its retry or deadline was due (a history's only with a sampled source); its retry is then ahead or none |
| `SchedulerPending.HistoryIsLatest` | src/scheduler/machine.rs:512-541 | a demanded history that is due and whose source has a sample is to be drawn for the last of its deadlines that have passed; any other keeps the one it was to be drawn for, unless its demand ended with the grace period |
| `SchedulerPending.DueJobIsServed` | src/scheduler/machine.rs:501-543 | after an accepted event that processes the time, in a running scheduler that awaits no inventory, the owner of every demanded job that was due, pending or asked for is occupied, unless its retry is still ahead, its source has no sample, or the event is its own result or an absence that takes it along |
| `SchedulerPending.ViewPendingIff` | src/scheduler/machine/demand.rs:112-218 | an event that changes only what is wanted or shown leaves pending exactly what was and has not lost its demand as page work, what it makes the plan want, what a new plan wants without a sample, and what a tooltip that comes up reads metrics for |
| `SchedulerPending.AskedJobIsServed` | src/scheduler/machine/demand.rs:112-218 | every wanted job that such an event leaves pending has its owner occupied afterwards, unless its retry is ahead or its source has no sample |
| `SchedulerPending.ReloadedJobIsServed` | src/scheduler/machine/demand.rs:246-286 | after a start or a reload, the owner of every wanted job that has no sample, or that a new configuration or the inventory that ends a resume asks for again, is occupied, unless its retry is ahead |
| `SchedulerPending.OnlyWantedStart` | src/scheduler/machine/publication.rs:4-67 | no run is started for a job that the plan does not want: hidden ones always, the tooltip's and the selected page's only while the tooltip is in effect |
| `SchedulerDeeds.DeedsAreExact` | src/scheduler/machine.rs:151-329 | besides publications, starts and the wake-up, an event hands out exactly the cancellations, for its own reason, of the runs that were in flight and are no longer without being closed, and exactly what the state before it tells: invalidations of dropped and changed sources and of what was drawn from an absent one, backoffs, evaluations, baselines, the rescan and the end |
| `SchedulerDeeds.CancellationsAreTold` | src/scheduler/machine.rs:725-732 | over every run, an outstanding run is being cancelled exactly when its cancellation was handed out |
| `SchedulerDeeds.StartedIsEquipped` | src/scheduler/machine/publication.rs:46-66 | a started run carries the current generations and exactly the metrics asked for: the hidden ones, with those of the tooltip while that is presented |
| `SchedulerDeadlines.StartedJobIsDue` | src/scheduler/machine.rs:377-417 | a start puts the first display deadline one interval away and gives every job its first deadline |
| `SchedulerDeadlines.ReloadedJobIsDue` | src/scheduler/machine/demand.rs:12-84 | a reload keeps the deadline of a job listed as it was and gives any other a first one; a new configuration restarts the display clock and takes the fast jobs with it |
| `SchedulerDeadlines.ResumedJobIs` | src/scheduler/machine.rs:673-712 | a resume leaves pending exactly the wanted jobs that take samples of their own, drops retries and history deadlines, has counters ask for a baseline, moves a due deadline to the next point of its grid and the fast jobs with the restarted display clock, and starts nothing before the rescan is answered |
| `SchedulerDeadlines.FirstPaintAwaits` | src/scheduler/machine/demand.rs:288-305 | after a start, a reload or a new plan the first paint waits for exactly the wanted panel jobs that take samples of their own and have none yet; a new plan lets it out as soon as there are none |
| `SchedulerDeadlines.PresentationSetsGrace` | src/scheduler/machine/demand.rs:122-147 | hiding a tooltip in effect starts its grace period and leaves it in effect; showing it ends the grace period and puts it in effect |
| `SchedulerDeadlines.GraceEndsOnTime` | src/scheduler/machine.rs:450-466 | an event that processes the time takes a hidden tooltip out of effect exactly when its grace period is over |
| `SchedulerSurfaces.PublicationsFit` | src/scheduler/machine/publication.rs:117-181 | whatever is published goes to the panel exactly as a first paint, a display deadline or an asked-for refresh of the panel, and to the tooltip exactly when that is presented and, if the panel is meant as well, in effect |
| `SchedulerSurfaces.DueDisplayReachesPanel` | src/scheduler/machine.rs:485-499 | when the display deadline is due, an event that processes the time publishes to the panel with that deadline and the number of further ones passed, and to the tooltip exactly when that is presented and in effect |
| `SchedulerSurfaces.FirstPaintReachesPanel` | src/scheduler/machine/publication.rs:81-115 | the first paint is published, to the panel, exactly when it is issued |
| `SchedulerSurfaces.FirstPaintIsOnce` | src/scheduler/machine/publication.rs:81-115 | no run publishes two first paints |
| `SchedulerSurfaces.PresentationAwaits` | src/scheduler/machine/demand.rs:122-173 | a tooltip that comes up waits for exactly the jobs it still did as far as they are wanted, those it makes the plan want and those that read metrics for it; without any it is published at once, otherwise nothing is and the wait is limited |
| `SchedulerSurfaces.PageAwaits` | src/scheduler/machine/demand.rs:175-218 | a page that comes up waits for what is still wanted of the jobs waited for and for those only it wants; a presented tooltip is published at once exactly when there are none |
| `SchedulerSurfaces.ReactivationAwaits` | src/scheduler/machine/demand.rs:149-173 | a tooltip shown again waits for what it still did and for the jobs that read metrics for it, and is published at once exactly when there are none |
| `SchedulerSurfaces.AwaitedTooltipIsPublished` | src/scheduler/machine.rs:634-642 | a tooltip that waits is published as soon as the last job it waits for has reported, whatever the result |
| `SchedulerSurfaces.ActivationIsAnswered` | src/scheduler/machine.rs:475-483 | a tooltip that waits is published when its time is up, whatever is missing |
| `SchedulerSurfaces.ReloadReachesPanel` | src/scheduler/machine.rs:419-448 | a new configuration is published to the panel at once if the first paint is out |
| `SchedulerSurfaces.RequestsAreAnswered` | src/scheduler/machine.rs:229-251 | a requested refresh of the panel is published to it, and one of a presented tooltip to that |
| `SchedulerSurfaces.AcknowledgementIsAcceptedIff` | src/scheduler/machine.rs:292-299 | over every run, an acknowledgement that is not from the past is accepted, until the scheduler is stopped, exactly when its publication was handed out for the panel and has not been acknowledged since |
| `SchedulerSurfaces.NumbersAreNeverReused` | src/scheduler/machine/publication.rs:166-181 | no two publications of one run have the same number |
| `SchedulerSurfaces.ArmedIff` | src/scheduler/machine.rs:292-299 | notifications are armed exactly once the panel has acknowledged something |
| `SchedulerTiming.TimeAdvancedTicks` | src/scheduler/machine.rs:479-499 | one clock event moves the display deadline by exactly the deadlines its publications publish or report skipped |
| `SchedulerTiming.DisplayDeadlinesAreConserved` | src/scheduler/machine.rs:479-499 | over any clock-only run after the first paint, published plus skipped display deadlines are exactly the grid points passed, however the clock is sampled |
| `SchedulerClock.DisplayDeadlinesAddUp` | src/scheduler/machine.rs:479-499 | over any run of events after the first paint without a new configuration, suspend or stop, published plus skipped display deadlines are exactly the grid points passed up to the last event that processed the time |
| `SchedulerClock.EventRides` | src/scheduler/machine.rs:192-317 | each such event moves the display deadline by exactly the deadlines it accounts for: the due ones if it processes the time, none otherwise |
| `SchedulerTiming.ProcessedIsAhead` | src/scheduler/machine.rs:450-544 | whatever event processes the time, every timer then waited for is later than now, the display deadline exactly unless the first paint is still awaited with it behind |
| `SchedulerWake.WakeIsStrictlyLater` | src/scheduler/machine.rs:252-351 | the wake-up asked for by an event that processes the time (clock, result, cancellation or trigger) is strictly later than it, exactly unless the event is accepted and the display deadline has passed before the first paint, which the event either leaves to be awaited or lets out with a wanted fast job put where the time has passed as well |
| `SchedulerWake.WakeIsEarliest` | src/scheduler/machine.rs:317-351 | an accepted event asks to be woken exactly at the earliest time there is something to do: a retry or deadline of a wanted job, the display, the first paint, the end of a grace period or of a wait |
| `SchedulerWake.FastJobFallsBehind` | src/scheduler/machine/publication.rs:69-116 | the second case occurs: a first paint let out 155 ms after a start with a 100 ms interval has the scheduler ask for a wake-up that has passed |
| `SchedulerTiming.JobTimersStayOnGrid` | src/scheduler/machine.rs:514-543 | processing the time moves a demanded job's deadline only when due, to the first point of its own grid later than now, or of the grid on which a first paint just timed out has put a fast job |
| `SchedulerTiming.StartupCanWaitInThePast` | src/scheduler/machine.rs:479-483 | a start that waits for a panel job with a display interval below the first-paint timeout does reach the exception above |
| `SchedulerPolicy.AdvancePastIsNextGridPoint` | src/scheduler/machine/policy.rs:16-38 | a due deadline moves to the first of its grid points after now, for every cadence |
| `SchedulerPolicy.LatestDueIsLastGridPoint` | src/scheduler/machine/policy.rs:40-62 | the history deadline is the last grid point not after now, one step before the next deadline |
| `SchedulerPolicy.SkippedCountsGridPoints` | src/scheduler/machine/policy.rs:90-112 | one published deadline plus its skipped count is the number of grid points stepped over |
| `SchedulerPolicy.RetryDelayDoubles` | src/scheduler/machine/policy.rs:7-14 | the first failure waits for the base delay, each further one twice as long up to the cap, and from the 32nd on the delay stays as it is |
| `SchedulerModel.SortActionsIsStable` | src/scheduler/machine/policy.rs:71-88 | actions are handed out by priority, those of one priority in the order issued, none lost or added |
| `SchedulerSafety.CancelIsSteady` | src/scheduler/machine.rs:725-732 | cancelling moves exactly the chosen runs from in flight to cancelling; owners stay occupied |
| `SchedulerSafety.LaunchKeepsOccupancy` | src/scheduler/machine/publication.rs:38-66 | launching on a free owner keeps owners and outstanding runs in step |
| `SchedulerSafety.CompletionReleases` | src/scheduler/machine.rs:556-567 | a completed run frees its owner and no other |
| `SchedulerSafety.AcknowledgementReleases` | src/scheduler/machine.rs:645-654 | an acknowledged cancellation frees its owner and no other |
| `SchedulerSteps.ReplaceJobsIsCalm` | src/scheduler/machine/demand.rs:12-84 | replacing the job table cancels every run in flight and keeps the cancelled ones outstanding |
| `SchedulerInvariant.ApplyIsArmOk` | src/scheduler/machine.rs:190-317 | no event arm starts a run by itself or closes more than the run it names |
| `SchedulerMachine.Scheduler.constructor` | src/scheduler/machine.rs:114-149 | a new scheduler is the initial state and valid |
| `SchedulerMachine.Scheduler.HandleEvent` | src/scheduler/machine.rs:151-329 | the whole of `handle`, fields updated in place, carries out the transition all results above are about: new state, disposition and sorted actions; the object stays valid and the actions account for every run that begins or ends |
| `SchedulerMachine.Scheduler.ApplyEvent` | src/scheduler/machine.rs:192-317 | every event arm carries out its transition |
| `SchedulerMachine.Scheduler.Complete` | src/scheduler/machine.rs:252-276 | the result arm: time first, then a cancellation finished or a result recorded, possibly rejected after time was processed |
| `SchedulerMachine.Scheduler.SettleEvent` | src/scheduler/machine.rs:319-324 | dispatch and the wake-up request after an accepted event |
| `SchedulerMachine.Scheduler.NextWake` | src/scheduler/machine.rs:331-351 | the loop over demanded jobs and surface timers finds the earliest deadline |
| `SchedulerMachine.Scheduler.StartUp` | src/scheduler/machine.rs:377-417 | startup arm, its table built and its panel jobs awaited by loops |
| `SchedulerMachine.Scheduler.Reconfigure` | src/scheduler/machine.rs:419-448 | configuration arm |
| `SchedulerMachine.Scheduler.ProcessTime` | src/scheduler/machine.rs:450-544 | all timers of one instant |
| `SchedulerMachine.Scheduler.ProcessJobTimers` | src/scheduler/machine.rs:501-543 | the loop over job timers decides readiness on the samples before the loop |
| `SchedulerMachine.Scheduler.FinishJob` | src/scheduler/machine.rs:546-643 | true exactly for a current ticket, whose result is then recorded; otherwise nothing changes |
| `SchedulerMachine.Scheduler.OrphanDependents` | src/scheduler/machine.rs:612-633 | the loop over dependent histories drops their samples and marks and invalidates them in job order |
| `SchedulerMachine.Scheduler.FinishCancellation` | src/scheduler/machine.rs:645-654 | true exactly for a run being cancelled, which is then released |
| `SchedulerMachine.Scheduler.Trigger` | src/scheduler/machine.rs:656-663 | marks a demanded job that is no history |
| `SchedulerMachine.Scheduler.Suspend` | src/scheduler/machine.rs:665-671 | suspend arm |
| `SchedulerMachine.Scheduler.Resume` | src/scheduler/machine.rs:673-712 | resume arm with its two loops over the jobs |
| `SchedulerMachine.Scheduler.Stop` | src/scheduler/machine.rs:714-723 | shutdown and critical-failure arms |
| `SchedulerMachine.Scheduler.CancelAll` | src/scheduler/machine.rs:725-732 | the loop that moves every run in flight to cancelling, one cancel action each, in job order |
| `SchedulerMachine.Scheduler.ReplaceJobs` | src/scheduler/machine/demand.rs:12-84 | the loops that match new specifications against old jobs, invalidate what changed or went, and rebuild the waiting sets |
| `SchedulerMachine.Scheduler.ChangeInventory` | src/scheduler/machine/demand.rs:86-110 | inventory arm with the resume handshake |
| `SchedulerMachine.Scheduler.ChangeDemand` | src/scheduler/machine/demand.rs:112-120 | demand arm |
| `SchedulerMachine.Scheduler.ChangePresentation` | src/scheduler/machine/demand.rs:122-144 | presentation arm with its grace period |
| `SchedulerMachine.Scheduler.RefreshActivation` | src/scheduler/machine/demand.rs:149-173 | marks and awaits tooltip-only jobs, or publishes at once |
| `SchedulerMachine.Scheduler.ChangePage` | src/scheduler/machine/demand.rs:175-194 | page arm |
| `SchedulerMachine.Scheduler.ActivateJobs` | src/scheduler/machine/demand.rs:196-218 | the loop over newly demanded jobs |
| `SchedulerMachine.Scheduler.CancelDemandEnded` | src/scheduler/machine/demand.rs:220-244 | the loop that cancels page work no longer demanded |
| `SchedulerMachine.Scheduler.RefreshDemand` | src/scheduler/machine/demand.rs:246-276 | the loop that marks demanded jobs without a sample and rests the others |
| `SchedulerMachine.Scheduler.RefreshAllDemanded` | src/scheduler/machine/demand.rs:278-286 | the loop that retries every demanded job |
| `SchedulerMachine.Scheduler.RebuildFirstPaintBlockers` | src/scheduler/machine/demand.rs:288-307 | recomputes what the first paint waits for |
| `SchedulerMachine.Scheduler.Dispatch` | src/scheduler/machine/publication.rs:4-67 | candidates are ranked once and started in that order on owners still free |
| `SchedulerMachine.Scheduler.ReanchorFastJobs` | src/scheduler/machine/publication.rs:69-79 | fast jobs move to just before the display deadline |
| `SchedulerMachine.Scheduler.IssueFirstPaint` | src/scheduler/machine/publication.rs:81-111 | the first paint, once, with the deadlines it stands for |
| `SchedulerMachine.Scheduler.IssuePublish` | src/scheduler/machine/publication.rs:117-180 | one publication, merged into a tooltip refresh of the same transition or left out where the source does |
| `Outbox.EventsAreOrdered` | src/adapters/applet.rs:174-193 | for every interleaving of sends, retirement and reconnects, `ConnectionLost` is the last event of its connection, and of the connections that have owned the name it comes after all events of older and before all events of newer ones |
| `Outbox.UnownedConnectionMaySpeakLate` | src/adapters/applet.rs:289-305 | an attempt that never owned the name announces nothing, so a call on it may follow the loss of a later connection |
| `Outbox.LossIsAnnounced` | src/adapters/applet.rs:213-242 | of the connections another attempt followed, exactly those that had owned the name have announced their loss |
| `Outbox.SentExactlyOnce` | src/adapters/applet.rs:174-182 | a send reports success exactly when its event is on the channel, once |
| `Outbox.QueueIsBoundedSuffix` | src/adapters/applet.rs:31-31 | what waits on the channel is the last part of what was sent, never more than its capacity |
| `Outbox.PermitsAreNeverShort` | src/adapters/applet.rs:174-193 | queued events and permits held never exceed the capacity, so a permit can always be used |
| `Outbox.FailureIsAnnounced` | src/adapters/applet.rs:244-256 | once another daemon is found to own the name, the service does nothing else before it has said so, unless the daemon is gone |
| `Outbox.ServiceFailsOnce` | src/adapters/applet.rs:244-256 | the service says at most once that it failed, and has then ended |
| `Outbox.RefusedOnlyIf` | src/adapters/applet.rs:174-182 | over every run without callers that give up, a refused call found its connection retired or the daemon gone |
| `Outbox.CallStepsEnd` | src/adapters/applet.rs:174-182 | every step of a call brings it nearer to its end, and no other step puts one back |
| `Outbox.CallsNeverStick` | src/adapters/applet.rs:174-193 | a call that holds a permit can go on or the call whose lock it waits for can, and one that waits for a permit can as soon as there is one or the daemon is gone |
| `Publisher.NoPublicationIsLost` | src/adapters/applet.rs:80-105 | in every reachable state a property flagged when the emitter started or published since is being stored, is flagged with a wake-up stored, due or consumed, or its current value is announced or about to be |
| `Publisher.QuietMeansAnnounced` | src/adapters/applet.rs:358-392 | when no step is left the lock is free and the last announcement of every published property is its current value |
| `Publisher.SurvivesReplacementIff` | src/adapters/applet.rs:226-232 | once a replacing emitter has come to rest it has announced a property not published again exactly when that was flagged or being stored at the replacement, and then with its current value; a signal under way is dropped |
| `Publisher.QuietIsReached` | src/adapters/applet.rs:358-392 | every step but a new publication or a new emitter reduces the work left, so quiet is reached |
| `Publisher.SelectionIsNeverTorn` | src/adapters/applet.rs:97-104 | page and page count are always announced together, as one call of `selection` gave them |
| `OutputBudget.Collect` | src/adapters/command.rs:381-439 | each stream keeps its beginning: standard output up to the limit, standard error as far as that leaves room; kept plus dropped is what was received, whatever the interleaving |
| `OutputBudget.InterleavingReceives` | src/adapters/command.rs:382-387 | every interleaving of two lists of chunks delivers each list in order, so the result above does not depend on it |
| `OutputBudget.OutputBudget.AppendStdout` | src/adapters/command.rs:389-414 | one chunk of standard output, standard error shifted behind it in place and cut where needed |
| `OutputBudget.OutputBudget.AppendStderr` | src/adapters/command.rs:416-424 | one chunk of standard error, as far as there is room |
| `OutputBudget.OutputBudget.Insert` | src/adapters/command.rs:403-410 | the move within the buffer and the copy into the gap keep both streams |
| `OutputBudget.OutputBudget.IntoParts` | src/adapters/command.rs:426-438 | the two streams and their dropped counts |
| `Html.StripTags` | src/render/model.rs:158-180 | the loop removes closed tags, and keeps unclosed and empty ones |
| `Html.DecodedEntityWidth` | src/render/model.rs:182-201 | the loop counts characters with entities decoded |
| `Html.VisibleWidthAppend` | src/render/model.rs:153-156 | the width of a fragment with complete tags and entities does not depend on what follows |
| `HtmlClosure.WidthAddsUpIff` | src/render/model.rs:153-201 | a fragment's width adds up with anything behind it exactly when every `<` is closed and no `&` is open whose tail begins an entity name |
| `HtmlClosure.BeginsEntityIff` | src/render/model.rs:203-221 | a text can be continued to an entity name exactly when it begins one of the names, or is `#`, `#x` or `#X` with at most a plus sign and digits whose value stays below 0x110000 behind it |
| `Html.OpenTextIsNotAdditive` | src/render/model.rs:182-201 | two halves of an entity are wider apart than together |
| `Html.SpacesWidth` | src/render/model.rs:223-225 | so many non-breaking spaces show with that width |
| `Mono.MeasureColumns` | src/render/mono.rs:44-53 | the nested loops find every column's widest cell |
| `Mono.RenderColumns` | src/render/mono.rs:55-68 | the loop pads each cell to its column, on the side its alignment says |
| `Mono.GlobalWidthBounds` | src/render/mono.rs:245-256 | no row is naturally wider than the global width |
| `Mono.MeasureBlocks` | src/render/mono.rs:245-256 | the loops of `global_width_of` |
| `Mono.RenderBlocksMonospace` | src/render/mono.rs:260-287 | plans first, then every row in order from its own plan at the one global width, separators in front of their blocks |
| `MonoWidth.SpanTakes` | src/render/mono.rs:23-31 | a cell shows with exactly its laid-out width, up to the drift of a layout width |
| `MonoWidth.ColumnsTake` | src/render/mono.rs:55-68 | padded columns show with the sum of their widths |
| `MonoWidth.RightValueRowIsExact` | src/render/mono.rs:136-146 | a row with a value at its right end shows with exactly the global width |
| `MonoWidth.CenterMiddleRowIsExact` | src/render/mono.rs:147-166 | so does a row with a centred middle, because its value fits its block's value column |
| `MonoWidth.LeftRowStaysWithin` | src/render/mono.rs:222-227 | any other row stays within the global width |
| `MonoWidth.TwoPairRowIsExactIffHalvesFit` | src/render/mono.rs:115-135 | a two-pair row is never narrower, and exact exactly when each pair fits its half |
| `MonoWidth.DocumentRowsAlign` | src/render/mono.rs:260-287 | in a whole document, at the width the layout chooses itself, the rows above align |
| `MonoWidth.LopsidedPairsOverflow` | src/render/mono.rs:115-135 | pairs of 15 and 3 in a document 18 wide show with 24 |
| `MonoWidth.NoOverrideNoDrift` | src/render/mono.rs:15-21 | without a layout width no cell drifts |
| `MonoText.RowShows` | src/render/mono.rs:55-228 | a row shows, at any width, the texts of its cells in order with non-breaking spaces only between them and behind the last, each at the place its column, its alignment and that width give it, none before the one in front of it ends; a title rule shows one space |
| `MonoText.DocumentShows` | src/render/mono.rs:260-287 | a document shows its rows in order, block by block, with one space for every separator |
| `MonoText.ValueEndsRow` | src/render/mono.rs:136-166 | a value at the right end is the last thing its row shows and ends at the width of the document |
| `MonoText.ColumnsLineUp` | src/render/mono.rs:44-68 | cells of one column line up over all rows of a block, with their beginnings, or if right-aligned with their ends |
| `MonoText.MiddleIsCentred` | src/render/mono.rs:147-166 | a centred middle leaves as much room in front as behind, up to one place, between the first column and the value column |
| `MonoText.RowKeepsClasses` | src/render/mono.rs:23-31 | every cell that has a class is written inside an element of that class, title rules excepted |
| `MonoText.RowFitsIff` | src/render/mono.rs:173-228 | the width a row with a value at its right end asks for is the one it needs: from exactly then on it ends with that width, or its middle keeps clear of the value column |
| `MonoText.OtherRowsNeed` | src/render/mono.rs:173-228 | any other row asks for the width of its cells: two pairs for all four, a single cell for its own, a row of columns for all columns of its block, a title rule for none |
| `MonoText.ValueColumnIsNeeded` | src/render/mono.rs:230-242 | the value column is as wide as one of the values at a right end |
| `MonoText.GlobalWidthIsNeeded` | src/render/mono.rs:245-258 | the width of a document is the least one asked for or that of one of its rows |
| `MonoText.ColumnIsNeeded` | src/render/mono.rs:44-53 | a column is as wide as one of its cells |
| `Grouping.NormalizeSeparators` | src/render/cells.rs:186-212 | the loop of `normalize_separators` |
| `Grouping.NormalizingKeeps` | src/render/cells.rs:186-212 | every row stays in order; between two rows exactly the largest separator stays; none stays at either end |
| `Grouping.TrailingIsLargest` | src/render/cells.rs:186-212 | a run of separators counts as a big one exactly when one of them is big |
| `Grouping.NormalizedIff` | src/render/cells.rs:186-212 | normalising leaves exactly the normal lists alone, and is idempotent |
| `Grouping.GroupRowsIntoBlocks` | src/render/model.rs:352-409 | the loop of `group_rows_into_blocks` |
| `Grouping.GroupedIsWellGrouped` | src/render/model.rs:352-409 | blocks have one shape each, and neighbours without a separator differ in shape |
| `Grouping.SameShapeIff` | src/render/model.rs:338-350 | rows have the same shape exactly when they have as many cells in the same roles |
| `Grouping.FirstWordIs` | src/render/model.rs:338-343 | the role of a cell is what stands between the first white space of its classes, if any, and the next |
| `Grouping.UngroupingUndoesIff` | src/render/model.rs:352-409 | taking the blocks apart gives back exactly the lists without adjacent or last separators |
| `Grouping.GroupingUndoesIff` | src/render/model.rs:352-409 | grouping the entries of blocks gives back exactly the well grouped lists: the two are inverse to each other |
| `Grouping.NormalizedSurvivesGrouping` | src/render/cells.rs:186-212 | normalised entries survive grouping and ungrouping |
| `TerminalText.SkipCsi` | src/page_commands/terminal.rs:58-68 | the loop finds the end of a control sequence and whether it is a colour sequence |
| `TerminalText.StripSgr` | src/page_commands/terminal.rs:70-86 | the loop keeps exactly the characters outside colour sequences |
| `TerminalText.SplitWords` | src/page_commands/terminal.rs:116-143 | the loop splits at spaces, colour sequences kept whole with their words and not counted |
| `TerminalText.PushWord` | src/page_commands/terminal.rs:145-167 | the loop places a word's tokens, breaking where a character no longer fits |
| `TerminalText.BreakLine` | src/page_commands/terminal.rs:169-173 | a line break and the indent |
| `TerminalText.WrapVisible` | src/page_commands/terminal.rs:94-113 | the whole of `wrap_visible`, on text |
| `TerminalWrap.WrappedLinesFit` | src/page_commands/terminal.rs:94-113 | every line of the wrapped text, read afresh, has at most `width` visible characters |
| `TerminalWrap.WrappedKeepsInk` | src/page_commands/terminal.rs:94-113 | the characters that are no spaces and the whole colour sequences are unchanged, in order, read line by line |
| `TerminalWrap.OnlyFittingLinesStay` | src/page_commands/terminal.rs:94-97 | exactly the lines that fit are returned as they are |
| `TerminalWrap.ShortWordsStayWhole` | src/page_commands/terminal.rs:89-113 | a word that fits behind the indentation, or as the first one without it, is never broken: some line of the wrapped text, read afresh, has it whole with nothing but spaces next to it |
| `TerminalWrap.WrappedReadsBack` | src/page_commands/terminal.rs:94-113 | splitting the result at its line breaks and reading each line gives the lines laid out, although breaks fall between characters of other control sequences |
| `TerminalBreaks.BreaksAreNeeded` | src/page_commands/terminal.rs:94-113 | wrapping breaks no line without need: every line but the first is indented, and the line before it is full or has no room for the word that begins it, in one piece if it fits there |
| `TerminalStrip.StrippingIsStableIff` | src/page_commands/terminal.rs:70-86 | removing colour sequences twice is the same as once exactly when no plain ESC, `[` and so on up to a plain `m` is kept apart only by colour sequences |
| `TerminalStrip.EveryEscapeColoursIsStable` | src/page_commands/terminal.rs:70-86 | so it is for every text in which each ESC begins a colour sequence |
| `TerminalWrap.StrippingTwiceDiffers` | src/page_commands/terminal.rs:70-86 | removing one colour sequence can form another |
| `Terminal.StablePrefix` | src/page_commands/terminal.rs:58-68 | text cut between tokens is read as the same tokens on both sides |
| `SystemBus.ServeBus` | src/adapters/dbus.rs:226-333 | the loop with its local state, event by event |
| `SystemBus.OneConnectionOrAttempt` | src/adapters/dbus.rs:239-262 | never a connection and an attempt together; signals exactly on the current connection; at most two calls |
| `SystemBus.OldCallsAreHarmless` | src/adapters/dbus.rs:281-295 | a call on a connection already lost cannot take its successor down |
| `SystemBus.EachConnectionIsLostOnce` | src/adapters/dbus.rs:281-319 | generations open in order; each is lost at most once, and exactly when it has opened and is not current |
| `SystemBus.AttemptsAreSpaced` | src/adapters/dbus.rs:87-117 | with nothing open or under way an attempt starts exactly when the doubling delay since the last failure, two seconds at most, has passed |
| `SystemBus.ReadinessIsReportedOnce` | src/adapters/dbus.rs:64-73 | the initial attempt is reported once, and always by the end |
| `SystemBus.ConnectionIsLostIff` | src/adapters/dbus.rs:277-319 | a turn loses the current connection exactly when it takes the end of its signals or the completion of a call on that very connection which saw it fail; it is then noted as lost, nothing listens on it and the next attempt waits from that time on |
| `SystemBus.ConnectionOpensIff` | src/adapters/dbus.rs:297-312 | a turn opens a connection, a new one with its own signals, exactly when it takes the success of an attempt; a refusal is noted with its time |
| `SystemBus.ConnectionLasts` | src/adapters/dbus.rs:239-333 | over every run a connection lasts until the first event that fails it, and never comes back |
| `SystemBus.RequestStartsCall` | src/adapters/dbus.rs:259-276 | a request taken while fewer than two calls run starts a call on the connection there is, and none without one |
| `SystemBus.CallEnds` | src/adapters/dbus.rs:277-295 | a call that ends, in whatever way, leaves exactly the others running |
| `SystemBus.LoopEndsClean` | src/adapters/dbus.rs:312-333 | a loop that has ended has left no call, attempt or listener behind |
| `SystemBus.ReadinessIsFirstOutcome` | src/adapters/dbus.rs:64-73 | what is reported as readiness is how the first attempt ended, and a failure if the loop was stopped before any had |
| `DeepMerge.DeepMergeTables` | src/config/merge.rs:26-46 | the loop of `deep_merge_tables` |
| `DeepMerge.MergeAt` | src/config/merge.rs:19-25 | at every path the override decides if it has anything there or a leaf above it, else the base does |
| `DeepMerge.PathsDetermineTable` | src/config/merge.rs:26-46 | tables that agree at every path are equal, so the law above says everything |
| `DeepMerge.MergeIdentity` | src/config/merge.rs:26-46 | the empty table is neutral on both sides |
| `DeepMerge.MergeIdempotent` | src/config/merge.rs:26-46 | merging a table into itself changes nothing |
| `DeepMerge.MergeAssociatesIff` | src/config/merge.rs:26-46 | merging is associative exactly when, wherever the middle table has a leaf between two tables, the last table overrides all of the first |
| `DeepMerge.MergeIsNotAssociative` | src/config/merge.rs:26-46 | three tables that merge differently from the left and from the right |
| `DeepMerge.ShadowsIsLeafAbove` | src/config/merge.rs:35-39 | what shadows a path is a leaf at one of its proper prefixes |
| `DeepMerge.LoadMachines` | src/config/merge.rs:138-151 | the left fold over the readable sources |
| `DeepMerge.HighestSourceWins` | src/config/merge.rs:130-137 | at a path the highest source that says anything about it decides |
| `DeepMerge.SilentPathStaysAbsent` | src/config/merge.rs:130-137 | a path no source says anything about stays absent |
| `Latch.NotificationLatch.Sustained` | src/notify.rs:78-103 | one sample advances the latch in place and reports the trip edge |
| `Latch.FiresExactlyAfterHold` | src/notify.rs:78-103 | over every trace the latch trips at a sample exactly when a stretch of values at the trip point, begun after every earlier alert was released, ends there and spans the hold time |
| `Latch.AlertsAreSeparated` | src/notify.rs:86-92 | between two alerts there is a value below the clear point |
| `SleepEvents.SleepEvents.Push` | src/adapters/shell.rs:79-86 | one signal coalesced in place |
| `SleepEvents.SleepEvents.Drain` | src/adapters/shell.rs:88-106 | what a drain hands out and leaves |
| `SleepEvents.DrainsRefineSignals` | src/adapters/shell.rs:71-107 | wherever polls fall, the drained signals, three at most, leave the scheduler in the lifecycle the signals themselves would |
| `SleepEvents.NoResumeIsLostIff` | src/adapters/shell.rs:71-107 | a drain wakes the scheduler exactly when the signals since the drain before would have, the one exception being a scheduler suspended before any signal whose first signals rise once before the first drain |
| `SleepEvents.SchedulerFollowsSignal` | src/scheduler/machine.rs:665-676 | the lifecycle used there is that of the scheduler's own suspend and resume |
| `Tooltip.ReadSections` | src/config_ui/tooltip.rs:75-105 | the loops of `sections` |
| `Tooltip.ReadingListsSections` | src/config_ui/tooltip.rs:75-105 | reading lists every section once, as the table has it |
| `TooltipLens.SectionReads` | src/config_ui/tooltip.rs:75-105 | a section is read under its title, or its key when it has none, enabled exactly when the order lists it, with the strings of its items in order |
| `Tooltip.Apply` | src/config_ui/tooltip.rs:107-188 | the checks and edits of `apply`, with the refusals and the place where writing can stop the program |
| `TooltipLens.SavedEditReadsBack` | src/config_ui/tooltip.rs:107-188 | a saved edit reads back: enabled sections in the requested order, the others in table order, each with the requested items and its title; unknown order entries are kept at the end; nothing else changes |
| `TooltipLens.ReadOrderIsComplete` | src/config_ui/tooltip.rs:75-105 | that order has every section of the table once |
| `TooltipLens.SectionsAreKeptIff` | src/config_ui/tooltip.rs:154-170 | an accepted edit keeps every section exactly when no section is called `order` or nothing is enabled |
| `TooltipLens.SectionCalledOrderIsLost` | src/config_ui/tooltip.rs:165-170 | otherwise the section `order` is lost or writing its items stops the program |
| `TooltipLens.SavingTwiceChangesNothing` | src/config_ui/tooltip.rs:154-188 | saving the same edit again is accepted and changes nothing |
| `TooltipLens.ChangedIff` | src/config_ui/tooltip.rs:164-187 | a saved edit reports a change, and so is written to the file, exactly when the table has changed |
| `TooltipLens.RefusedIff` | src/config_ui/tooltip.rs:122-153 | an edit is turned away exactly when its keys are no rearrangement of those read, or else exactly when it puts an item into a section that neither the tooltip offers nor that section had |
| `TooltipLens.StoppedIff` | src/config_ui/tooltip.rs:171-179 | an edit that is not refused stops the program exactly when it enables a section and changes the items of one called `order` |
| `ShellJoin.WordsOfJoined` | src/page_commands.rs:775-790 | a POSIX shell reads a joined list as its arguments that are not empty |
| `ShellJoin.RoundTripIff` | src/page_commands.rs:775-790 | so the round trip is exact for exactly the lists without an empty argument |
| `ShellJoin.QuotedIsRead` | src/page_commands.rs:777-787 | one quoted argument is read as one word, itself, quotes and all |

## Left out

- SchedulerWake.WakeIsStrictlyLater: assumes positive cadences and display interval, as `src/domain/cadence.rs:22-28` guarantees for every configured one; a zero cadence would move a due timer to now.
- SchedulerTiming.ProcessedIsAhead: assumes the same.
- SchedulerTiming.JobTimersStayOnGrid: is about jobs with a positive cadence; a zero one has no grid.
- SchedulerTiming.DisplayDeadlinesAreConserved: assumes a positive display interval, as `src/domain/cadence.rs:22-28` guarantees, and a display deadline ahead, as every start and resume sets it; `SchedulerClock.DisplayDeadlinesAddUp` does without the latter.
- SchedulerResults.RunKeepsHistory: assumes what the debug assertion of `mark_pending` demands of the job lists: no history job is an AMD job or a hardware discovery.
- SchedulerSources.ReloadKeepsSourcedIffSourcesStay: assumes that a reloaded job list names every job once.
- SchedulerCatalogue.CataloguedRunKeepsSourced: takes it from `src/sensors/catalog.rs` that the job lists have that shape; the catalogue itself is not modelled.
- SystemBus.OneConnectionOrAttempt: assumes fewer than 2^64 turns of the loop, as do the other results about that loop; the generation counter itself wraps as in the source.
- SchedulerDeeds.DeedsAreExact: assumes that a reloaded job list names every job once, as do `CancellationsAreTold` and `ReloadedJobIsDue`.
- SchedulerPending.DueJobIsServed: says nothing of histories when an absence is recorded; `SchedulerSources.AbsenceKeepsSourcedUnlessChained` says which keep their source.
- MonoText.RowShows: is about cells whose text leaves no tag open and whose class cannot close one, as is `DocumentShows`.
- TerminalWrap.WrappedLinesFit: is about a line without line breaks, as is `WrappedKeepsInk`; widths count characters, and bytes are not modelled.
- Saturation of times at the maximum duration and of 64-bit counters: times, generations, run, publication and reconciliation numbers are unbounded.
- Job owners, kinds and sources are their ranks in the derived order; hardware rescans carry only their reconciliation number.
- Aliasing of the scheduler's job table through `&mut` borrows: the table is a map-valued field that each loop step reassigns.
- Which clients the applet service knows (`known`, `ClientGone`), the validation of calls, and the D-Bus names and paths.
- Growth and shrinking of the output buffer's allocation; the reading of the pipes.
- The horizontal panel, the minimum width of cells, CSS class names that contain `>`, and the forms of metrics.
- `strip_terminal_noise`, HTML escaping, page building and the caches of page commands.
- The session bus loop, which repeats the system bus loop without signals; replies to requests; the calls themselves.
- Reading and writing files, locks, TOML syntax and comments, the registry of available tooltip items (a parameter), and the payload limit.
- `parse_surface` and `resolve_items`, whose loops only filter lists.
- `check_and_notify` around the latch: labels, payloads and delivery. Values, limits and times of the latch are real numbers, not floating point.
- The daemon's loop, sensors, discovery, charts, CSS, CLI, diagnostics and profiling.
