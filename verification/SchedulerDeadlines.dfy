/** Where deadlines come from: a start, a reload, and the tooltip's grace period (src/scheduler/machine.rs and its
    demand submodule). */
module SchedulerDeadlines {
  import opened Arithmetic
  import opened Wrappers
  import opened SchedulerPolicy
  import opened SchedulerModel
  import opened SchedulerSpec
  import opened SchedulerSteps
  import opened SchedulerInvariant
  import opened SchedulerRuns
  import opened SchedulerSources
  import opened SchedulerTiming
  import opened SchedulerClock
  import opened SchedulerPending

  /** A job's first deadline: just before the display's, or one period from now; a triggered job has none. */
  function FirstDue(spec: JobSpec, now: Time, display: Time): Option<Time> {
    if spec.timing == Triggered then None
    else if spec.timing == FastDisplay then Some(if display >= FAST_PREFETCH then display - FAST_PREFETCH else 0)
    else Some(now + spec.freshness)
  }

  predicate SameDue(a: JobTable, b: JobTable) {
    a.Keys == b.Keys && forall id :: id in a ==> a[id].nominalDue == b[id].nominalDue && a[id].spec == b[id].spec
  }

  lemma NewIsDue(spec: JobSpec, now: Time, display: Time)
    ensures NewRuntime(spec, now, display).nominalDue == FirstDue(spec, now, display) && NewRuntime(spec, now, display).spec == spec
  {
  }

  lemma MarksKeepDue(jobs: JobTable, which: set<JobId>, demanded: set<JobId>, now: Time)
    ensures SameDue(jobs, Marked(jobs, which, now)) && SameDue(jobs, DemandRefreshed(jobs, demanded, now))
    ensures SameDue(jobs, AllRetried(jobs, which, now))
  {
  }

  lemma SettleKeepsDue(s: State, e: SchedulerEvent)
    requires Inv(s) && EarlyRejection(s, e).None?
    ensures var x := Apply(s.(now := e.at), e).0.s;
      SameDue(x.runs.jobs, Handle(s, e).s.runs.jobs) && Handle(s, e).s.paint == x.paint && Handle(s, e).s.view == x.view
  {
    hide Inv, Apply, Dispatch, NextWake, SortActions, EarlyRejection;
    var (x, d) := Apply(s.(now := e.at), e);
    SettleDue(s, e, x, d);
  }

  lemma SettleDue(s: State, e: SchedulerEvent, x: Step, d: EventDisposition)
    requires Inv(s) && EarlyRejection(s, e).None? && (x, d) == Apply(s.(now := e.at), e)
    ensures var y := Settle(x, d).s; SameDue(x.s.runs.jobs, y.runs.jobs) && y.paint == x.s.paint && y.view == x.s.view
  {
    hide Inv, Apply, StartEach, CandidatesInOrder, Candidates, NextWake, EarlyRejection;
    if d == Accepted && x.s.lifecycle == Running && x.s.handshake.awaiting.None? {
      CandidatesKnown(x.s);
      StartEachKeepsDue(x, CandidatesInOrder(Candidates(x.s)));
    }
  }

  lemma CandidatesKnown(s: State)
    ensures Listed(s.runs.jobs, CandidatesInOrder(Candidates(s)))
  {
  }

  lemma {:induction false} StartEachKeepsDue(x: Step, cs: seq<Candidate>)
    requires Listed(x.s.runs.jobs, cs)
    ensures var y := StartEach(x, cs).s; SameDue(x.s.runs.jobs, y.runs.jobs) && y.paint == x.s.paint && y.view == x.s.view
  {
    hide StartOne;
    if cs != [] {
      var last := |cs| - 1;
      StartEachKeepsDue(x, cs[..last]);
      StartOneKeepsDue(StartEach(x, cs[..last]), cs[last].id);
    }
  }

  lemma StartOneKeepsDue(x: Step, id: JobId)
    requires id in x.s.runs.jobs
    ensures var y := StartOne(x, id).s; SameDue(x.s.runs.jobs, y.runs.jobs) && y.paint == x.s.paint && y.view == x.s.view
  {
    hide TicketFor;
  }

  // ----- a start

  lemma {:induction false} TableDue(specs: seq<JobSpec>, now: Time, display: Time, i: nat)
    requires i < |specs| && DistinctIds(specs)
    ensures var table := TableOf(specs, now, display);
      specs[i].id in table && table[specs[i].id].nominalDue == FirstDue(specs[i], now, display)
  {
    hide NewRuntime, FirstDue;
    var last := |specs| - 1;
    NewIsDue(specs[last], now, display);
    if i < last {
      assert specs[..last][i] == specs[i];
      TableDue(specs[..last], now, display, i);
    }
  }

  /** After a start, the first display deadline is one interval away and every job has its first deadline. */
  lemma StartedJobIsDue(e: SchedulerEvent, i: nat)
    requires e.Startup? && e.config.displayInterval > 0 && DistinctIds(e.config.jobs) && i < |e.config.jobs|
    ensures var out, spec, display := Handle(INITIAL, e).s, e.config.jobs[i], e.at + e.config.displayInterval;
      && out.paint.nextDisplay == Some(display)
      && spec.id in out.runs.jobs && out.runs.jobs[spec.id].nominalDue == FirstDue(spec, e.at, display)
  {
    hide Settle, SortActions, TableOf, StartUp, FirstDue;
    var s' := INITIAL.(now := e.at);
    InitialInvariant();
    SettleKeepsDue(INITIAL, e);
    TableDue(e.config.jobs, e.at, e.at + e.config.displayInterval, i);
    StartUpDue(s', e.config, e.inventoryGeneration);
  }

  lemma StartUpDue(s: State, config: SchedulerConfig, inventory: nat)
    requires config.displayInterval > 0
    ensures var y := StartUp(Step(s, []), config, inventory).s; var display := s.now + config.displayInterval;
      SameDue(TableOf(config.jobs, s.now, display), y.runs.jobs) && y.paint.nextDisplay == Some(display)
  {
    hide TableOf, Publish, CurrentDemand, Sampling, StartupPanel, FirstPaintSkips;
    var s1 := Started(s, config, inventory);
    MarksKeepDue(s1.runs.jobs, Sampling(CurrentDemand(s1), s1.runs.jobs), {}, s1.now);
  }

  // ----- a reload

  lemma ReplacedDue(x: Step, specs: seq<JobSpec>, reason: CancelReason, i: nat)
    requires DistinctIds(specs) && i < |specs| && x.s.paint.nextDisplay.Some?
    ensures var y := ReplaceJobs(x, specs, reason).s; var spec, jobs := specs[i], x.s.runs.jobs;
      && y.paint.nextDisplay == x.s.paint.nextDisplay && y.now == x.s.now && y.settings == x.s.settings
      && spec.id in y.runs.jobs && y.runs.jobs[spec.id].spec == spec
      && y.runs.jobs[spec.id].nominalDue == if spec.id in jobs && jobs[spec.id].spec == spec then jobs[spec.id].nominalDue
                                            else FirstDue(spec, x.s.now, x.s.paint.nextDisplay.value)
  {
    hide CancelActions, Moved, AddTickets, ReplaceEach, InvalidateAll, FirstPaintBlockers, CurrentDemand, FirstDue, IdsOf;
    var x1 := CancelAll(x, reason);
    var landed := x1.s.runs.jobs;
    ReplaceEachTable(landed, x1.acts, specs, x1.s.now, DisplayAnchor(x1.s), reason);
    NewIsDue(specs[i], x.s.now, x.s.paint.nextDisplay.value);
    var r := ReplaceEach(Replacement(landed, map[], x1.acts), specs, x1.s.now, DisplayAnchor(x1.s), reason);
    var w := WithJobs(x1.s, r.table);
    MarksKeepDue(r.table, FirstPaintBlockers(w.runs.jobs, CurrentDemand(w)), {}, x.s.now);
    MarksKeepDue(r.table, {}, {}, x.s.now);
    PlacedDue(landed, specs[i], x.s.now, x.s.paint.nextDisplay.value);
  }

  lemma PlacedDue(jobs: JobTable, spec: JobSpec, now: Time, display: Time)
    ensures var rt := Placed(jobs, spec, now, display);
      && rt.spec == spec
      && rt.nominalDue == if spec.id in jobs && jobs[spec.id].spec == spec then jobs[spec.id].nominalDue else FirstDue(spec, now, display)
  {
    NewIsDue(spec, now, display);
    hide NewRuntime, SourceChanged;
  }

  lemma InventoryDue(s: State, update: InventoryUpdate, i: nat)
    requires DistinctIds(update.jobs) && i < |update.jobs| && s.paint.nextDisplay.Some?
    ensures var y := ChangeInventory(Step(s, []), update).s; var spec, jobs := update.jobs[i], s.runs.jobs;
      && y.paint.nextDisplay == s.paint.nextDisplay
      && spec.id in y.runs.jobs
      && y.runs.jobs[spec.id].nominalDue == if spec.id in jobs && jobs[spec.id].spec == spec then jobs[spec.id].nominalDue
                                            else FirstDue(spec, s.now, s.paint.nextDisplay.value)
  {
    hide ReplaceJobs, ActivateJobs, DemandRefreshed, CurrentDemand, AllRetried, Sampling, Acknowledges, CancelWhere, PageWork, FirstDue;
    var before := CurrentDemand(s);
    var x1 := Step(s.(settings := s.settings.(inventoryGeneration := update.generation, demand := update.demand)), []);
    ReplacedDue(x1, update.jobs, SourceReplaced, i);
    var x2 := ReplaceJobs(x1, update.jobs, SourceReplaced);
    var s3 := if Acknowledges(s, update) then x2.s.(handshake := x2.s.handshake.(awaiting := None)) else x2.s;
    var s4 := ActivateJobs(s3, before, CurrentDemand(s3), s3.view.effectivePresented);
    ActivatedDue(s3, before, CurrentDemand(s3), s3.view.effectivePresented);
    MarksKeepDue(s4.runs.jobs, {}, CurrentDemand(s4), s4.now);
    var x5 := RefreshDemand(Step(s4, x2.acts), false);
    MarksKeepDue(x5.s.runs.jobs, Sampling(CurrentDemand(x5.s), x5.s.runs.jobs), {}, x5.s.now);
  }

  lemma ActivatedDue(s: State, before: set<JobId>, after: set<JobId>, track: bool)
    ensures var y := ActivateJobs(s, before, after, track); SameDue(s.runs.jobs, y.runs.jobs) && y.paint == s.paint && y.now == s.now
  {
    hide Sampling;
    MarksKeepDue(s.runs.jobs, Sampling(after - before, s.runs.jobs), {}, s.now);
  }

  lemma ConfigDue(s: State, config: SchedulerConfig, i: nat)
    requires DistinctIds(config.jobs) && i < |config.jobs|
    ensures var y := Reconfigure(Step(s, []), config).s;
      var spec, jobs, display := config.jobs[i], s.runs.jobs, s.now + config.displayInterval;
      && y.paint.nextDisplay == Some(display)
      && spec.id in y.runs.jobs
      && y.runs.jobs[spec.id].nominalDue ==
           if spec.timing != FastDisplay && spec.id in jobs && jobs[spec.id].spec == spec then jobs[spec.id].nominalDue
           else FirstDue(spec, s.now, display)
  {
    hide ReplaceJobs, RefreshDemand, CurrentDemand, Publish, Marked, DiscoveryJobs, ReanchorFastJobs, FirstDue;
    var x1 := Step(Reset(s, config), []);
    ReplacedDue(x1, config.jobs, ConfigReplaced, i);
    var x2 := ReplaceJobs(x1, config.jobs, ConfigReplaced);
    var r := ReanchorFastJobs(x2.s);
    ReanchoredDue(x2.s, config.jobs[i].id);
    RefreshDue(Step(r, x2.acts));
    var x3 := RefreshDemand(Step(r, x2.acts), false);
    MarksKeepDue(x3.s.runs.jobs, DiscoveryJobs(x3.s), {}, x3.s.now);
  }

  lemma RefreshDue(x: Step)
    ensures var y := RefreshDemand(x, false).s; SameDue(x.s.runs.jobs, y.runs.jobs) && y == x.s.(runs := y.runs)
  {
    hide DemandRefreshed, CurrentDemand, CancelWhere, PageWork;
    MarksKeepDue(x.s.runs.jobs, {}, CurrentDemand(x.s), x.s.now);
  }

  lemma ReanchoredDue(s: State, id: JobId)
    requires id in s.runs.jobs && s.paint.nextDisplay.Some?
    ensures var y := ReanchorFastJobs(s);
      && y.paint == s.paint && y.now == s.now && id in y.runs.jobs && y.runs.jobs[id].spec == s.runs.jobs[id].spec
      && y.runs.jobs[id].nominalDue == if s.runs.jobs[id].spec.timing == FastDisplay
                                       then FirstDue(s.runs.jobs[id].spec, s.now, s.paint.nextDisplay.value) else s.runs.jobs[id].nominalDue
  {
  }

  /** After a reload, a job listed as it was keeps its deadline, and any other has a first one; a new configuration
      restarts the display clock, and takes the fast jobs with it. */
  lemma ReloadedJobIsDue(s: State, e: SchedulerEvent, specs: seq<JobSpec>, i: nat)
    requires Inv(s) && s.lifecycle != Unstarted && EarlyRejection(s, e).None? && i < |specs| && DistinctIds(specs)
    requires (e.ConfigChanged? && specs == e.config.jobs) || (e.InventoryChanged? && specs == e.update.jobs)
    ensures s.paint.nextDisplay.Some?
    ensures var out, spec, jobs := Handle(s, e).s, specs[i], s.runs.jobs;
      var display := if e.ConfigChanged? then e.at + e.config.displayInterval else s.paint.nextDisplay.value;
      && out.paint.nextDisplay == Some(display)
      && spec.id in out.runs.jobs
      && out.runs.jobs[spec.id].nominalDue ==
           if spec.id in jobs && jobs[spec.id].spec == spec && !(e.ConfigChanged? && spec.timing == FastDisplay)
           then jobs[spec.id].nominalDue else FirstDue(spec, e.at, display)
  {
    hide Inv, Handle, Reconfigure, ChangeInventory, EarlyRejection, FirstDue;
    SettleKeepsDue(s, e);
    InvDisplay(s);
    var s' := s.(now := e.at);
    if e.ConfigChanged? {
      ConfigDue(s', e.config, i);
    } else {
      InventoryDue(s', e.update, i);
    }
  }

  lemma InvDisplay(s: State)
    requires Inv(s) && s.lifecycle != Unstarted
    ensures s.paint.nextDisplay.Some?
  {
  }

  // ----- the grace period

  /** Hiding a tooltip that is in effect starts its grace period, and leaves it in effect; showing it ends the grace
      period and puts it in effect. */
  lemma PresentationSetsGrace(s: State, e: SchedulerEvent)
    requires Inv(s) && e.TooltipPresented? && EarlyRejection(s, e).None?
    ensures var v := Handle(s, e).s.view;
      && v.presented == e.presented
      && v.effectivePresented == (e.presented || s.view.effectivePresented)
      && v.deactivationDeadline == if e.presented then None
                                   else if s.view.presented && s.view.effectivePresented then Some(e.at + DEACTIVATION_GRACE)
                                   else s.view.deactivationDeadline
  {
    hide Inv, Handle, ActivateJobs, RefreshActivation, EarlyRejection, DemandPlan.Demanded;
    SettleKeepsDue(s, e);
    var s' := s.(now := e.at);
    var shown := s'.(view := s'.view.(presented := true, deactivationDeadline := None, effectivePresented := true));
    ActivateKeepsView(shown, shown.settings.demand.Demanded(false, shown.view.selectedPage), CurrentDemand(shown), true);
    RefreshKeepsView(Step(ShowTooltip(s'), []));
  }

  lemma ActivateKeepsView(s: State, before: set<JobId>, after: set<JobId>, track: bool)
    ensures var v := ActivateJobs(s, before, after, track).view;
      v.presented == s.view.presented && v.effectivePresented == s.view.effectivePresented && v.deactivationDeadline == s.view.deactivationDeadline
  {
    hide Marked, Sampling;
  }

  lemma RefreshKeepsView(x: Step)
    ensures var v := RefreshActivation(x).s.view;
      v.presented == x.s.view.presented && v.effectivePresented == x.s.view.effectivePresented
      && v.deactivationDeadline == x.s.view.deactivationDeadline
  {
    hide Marked, Stale, Publish;
  }

  /** An event that processes the time takes a hidden tooltip out of effect exactly when its grace period is over. */
  lemma GraceEndsOnTime(s: State, e: SchedulerEvent)
    requires Inv(s) && s.lifecycle == Running && Ticks(e) && EarlyRejection(s, e).None?
    ensures Handle(s, e).s.view.effectivePresented <==> s.view.effectivePresented && !GraceEnds(s, e.at)
    ensures Handle(s, e).s.view.presented == s.view.presented
  {
    hide Inv, Handle, TimeFirst, FinishJob, Trigger, FinishCancellation, EarlyRejection, Finishes, Cancelling;
    SettleKeepsDue(s, e);
    var s' := s.(now := e.at);
    TimeKeepsPresented(s');
    if e.JobFinished? && Finishes(TimeFirst(s').s, e.ticket) {
      FinishKeepsPresented(TimeFirst(s'), e.ticket, e.completion, e.notificationReady);
    }
    TailKeepsView(TimeFirst(s').s, e);
  }

  lemma TailKeepsView(s: State, e: SchedulerEvent)
    ensures e.RefreshTriggered? ==> Trigger(s, e.job).view == s.view
    ensures e.JobFinished? || e.JobCancelled? ==> FinishCancellation(s, e.ticket).view == s.view
  {
    hide Marked, Sampling;
  }

  lemma TimeKeepsPresented(s: State)
    requires s.lifecycle == Running
    ensures var v := TimeFirst(s).s.view;
      && v.presented == s.view.presented
      && (v.effectivePresented <==> s.view.effectivePresented && !GraceEnds(s, s.now))
  {
    hide ExpireDeactivation, IssueFirstPaint, ExpireActivation, DisplayTick, TimedJobs, CurrentDemand;
    var x := Step(s, []);
    var a := ExpireDeactivation(x);
    DeactivationView(x);
    FirstPaintFrame(a, FirstPaintTimeout);
    var b := ExpireFirstPaint(a);
    LaterKeepPresented(b);
    LaterKeepPresented(ExpireActivation(b));
  }

  lemma DeactivationView(x: Step)
    ensures var v := ExpireDeactivation(x).s.view;
      v.presented == x.s.view.presented && (v.effectivePresented <==> x.s.view.effectivePresented && !GraceEnds(x.s, x.s.now))
  {
    hide CancelRuns, CancelActions, Moved, DemandRefreshed, CurrentDemand, PageWork;
  }

  lemma LaterKeepPresented(x: Step)
    ensures var v := ExpireActivation(x).s.view; v.presented == x.s.view.presented && v.effectivePresented == x.s.view.effectivePresented
    ensures DisplayTick(x).s.view == x.s.view
  {
    hide Publish, SkippedIntervals, AdvancePast;
  }

  lemma FinishKeepsPresented(x: Step, t: JobTicket, completion: CompletionKind, ready: bool)
    requires Finishes(x.s, t)
    ensures var v := FinishJob(x, t, completion, ready).s.view;
      v.presented == x.s.view.presented && v.effectivePresented == x.s.view.effectivePresented
  {
    hide CompletedJobs, CompletionActions, IssueFirstPaint, Publish;
    FirstPaintFrame(Step(LandRun(x.s, t, completion), x.acts + CompletionActions(x.s, t, completion, ready)), FirstPaintReady);
  }

  // ----- a resume

  /** A resume leaves pending, since now, exactly the wanted jobs that take samples of their own; it drops retries and
      pending history deadlines, has counters ask for a baseline, and moves a due deadline to the next point of its
      grid, fast jobs excepted, which follow the restarted display clock. Until the rescan is answered nothing starts. */
  lemma ResumedJobIs(s: State, e: SchedulerEvent, id: JobId)
    requires Inv(s) && s.lifecycle == Suspended && e.Resume? && EarlyRejection(s, e).None? && id in s.runs.jobs
    ensures var out := Handle(s, e).s; var was := s.runs.jobs[id];
      && out.lifecycle == Running && out.handshake.awaiting == Some(s.handshake.nextReconciliationId)
      && out.paint.nextDisplay == Some(e.at + s.settings.displayInterval)
      && id in out.runs.jobs
      && var rt := out.runs.jobs[id];
      && rt.pendingSince == (if Wanted(s, id) && was.spec.timing != History then Some(e.at) else None)
      && rt.retryDue.None? && rt.pendingHistoryDeadline.None? && rt.inFlight.None?
      && rt.needsBaseline == (was.spec.counter || was.needsBaseline)
      && rt.nominalDue ==
           if was.spec.timing == FastDisplay then FirstDue(was.spec, e.at, e.at + s.settings.displayInterval)
           else if was.spec.timing != Triggered && Due(was.nominalDue, e.at)
           then Some(AdvancePast(was.nominalDue.value, was.spec.freshness, e.at)) else was.nominalDue
  {
    hide Inv, AdvancePast, ResumeNow, SortActions, NextWake, Wanted, CurrentDemand, EarlyRejection, FirstDue;
    var s' := s.(now := e.at);
    DemandIsWanted(s, id);
    SuspendedIsGrounded(s, id);
    SameDemand(s, s');
    ResumedTable(s', id);
    ResumeHandled(s, e);
  }

  /** Nothing starts while the rescan is awaited. */
  lemma ResumeHandled(s: State, e: SchedulerEvent)
    requires s.lifecycle == Suspended && e.Resume? && EarlyRejection(s, e).None?
    ensures Handle(s, e).s == ResumeNow(Step(s.(now := e.at), [])).s
  {
    hide Awakened, ResumedJobs, CurrentDemand, BaselineResets, NextWake, SortActions, EarlyRejection;
  }

  lemma ResumedTable(s: State, id: JobId)
    requires s.lifecycle == Suspended && id in s.runs.jobs
    ensures var out := ResumeNow(Step(s, [])).s; var was := s.runs.jobs[id];
      && out.lifecycle == Running && out.handshake.awaiting == Some(s.handshake.nextReconciliationId)
      && out.paint.nextDisplay == Some(s.now + s.settings.displayInterval)
      && id in out.runs.jobs
      && var rt := out.runs.jobs[id];
      && rt.pendingSince == (if id in CurrentDemand(s) && was.spec.timing != History then Some(s.now) else None)
      && rt.retryDue.None? && rt.pendingHistoryDeadline.None? && rt.inFlight == was.inFlight
      && rt.needsBaseline == (was.spec.counter || was.needsBaseline)
      && rt.nominalDue ==
           if was.spec.timing == FastDisplay then FirstDue(was.spec, s.now, s.now + s.settings.displayInterval)
           else if was.spec.timing != Triggered && Due(was.nominalDue, s.now)
           then Some(AdvancePast(was.nominalDue.value, was.spec.freshness, s.now)) else was.nominalDue
  {
    hide AdvancePast, BaselineResets, CurrentDemand, ResumedRuntime;
    var s1 := Awakened(s);
    SameDemand(s, s1);
    ResumedIs(s1.runs.jobs[id], id in CurrentDemand(s1), s.now);
  }

  lemma ResumedIs(was: JobRuntime, demanded: bool, now: Time)
    ensures var rt := ResumedRuntime(was, demanded, now);
      && rt.pendingSince == (if demanded && was.spec.timing != History then Some(now) else None)
      && rt.retryDue.None? && rt.pendingHistoryDeadline.None? && rt.inFlight == was.inFlight
      && rt.needsBaseline == (was.spec.counter || was.needsBaseline)
      && rt.nominalDue == if (was.spec.timing == Periodic || was.spec.timing == History) && Due(was.nominalDue, now)
                          then Some(AdvancePast(was.nominalDue.value, was.spec.freshness, now)) else was.nominalDue
  {
    hide AdvancePast;
  }

  lemma SuspendedIsGrounded(s: State, id: JobId)
    requires Inv(s) && s.lifecycle == Suspended && id in s.runs.jobs
    ensures s.runs.jobs[id].inFlight.None?
  {
    if s.runs.jobs[id].inFlight.Some? {
      FiledTicket(s, id);
    }
  }

  lemma FiledTicket(s: State, id: JobId)
    requires Inv(s) && id in s.runs.jobs && s.runs.jobs[id].inFlight.Some?
    ensures Flying(s.runs, s.runs.jobs[id].inFlight.value)
  {
  }

  // ----- what the first paint waits for

  /** A wanted panel job that takes samples of its own and has none yet. */
  predicate Blocks(s: State, id: JobId) {
    id in s.runs.jobs && Wanted(s, id) && s.runs.jobs[id].spec.startupPanel && s.runs.jobs[id].spec.timing != History
    && !s.runs.jobs[id].hasSample
  }

  ghost predicate WaitsForBlockers(s: State) {
    !s.paint.firstPaintIssued ==> forall id :: id in s.paint.firstPaintWaiting <==> Blocks(s, id)
  }

  /** Same jobs, samples, demand and paint. */
  ghost predicate SameNeeds(a: State, b: State) {
    && b.paint.firstPaintIssued == a.paint.firstPaintIssued && b.paint.firstPaintWaiting == a.paint.firstPaintWaiting
    && b.settings.demand == a.settings.demand && b.view.effectivePresented == a.view.effectivePresented
    && b.view.selectedPage == a.view.selectedPage && b.runs.jobs.Keys == a.runs.jobs.Keys
    && forall id :: id in a.runs.jobs ==> b.runs.jobs[id].spec == a.runs.jobs[id].spec && b.runs.jobs[id].hasSample == a.runs.jobs[id].hasSample
  }

  lemma NeedsKept(a: State, b: State)
    requires WaitsForBlockers(a) && SameNeeds(a, b)
    ensures WaitsForBlockers(b)
  {
  }

  lemma BlockersAre(s: State, id: JobId)
    ensures id in FirstPaintBlockers(s.runs.jobs, CurrentDemand(s)) <==> Blocks(s, id)
  {
    hide CurrentDemand, Wanted;
    DemandIsWanted(s, id);
  }

  lemma ResettledWaits(s: State)
    ensures WaitsForBlockers(Resettled(s))
  {
    hide FirstPaintBlockers, CurrentDemand, Wanted;
    var y := Resettled(s);
    forall id
      ensures id in FirstPaintBlockers(s.runs.jobs, CurrentDemand(s)) <==> Blocks(y, id)
    {
      BlockersAre(s, id);
      DemandIsWanted(s, id);
      DemandIsWanted(y, id);
      SameDemand(s, y);
    }
  }

  lemma ReplacedWaits(x: Step, specs: seq<JobSpec>, reason: CancelReason)
    ensures WaitsForBlockers(ReplaceJobs(x, specs, reason).s)
  {
    hide CancelWhere, ReplaceEach, InvalidateAll, Resettled, WaitsForBlockers;
    var x1 := CancelAll(x, reason);
    var r := ReplaceEach(Replacement(x1.s.runs.jobs, map[], x1.acts), specs, x1.s.now, DisplayAnchor(x1.s), reason);
    ResettledWaits(WithJobs(x1.s, r.table));
  }

  lemma MarksKeepNeeds(s: State, which: set<JobId>, acts: seq<SchedulerAction>)
    ensures SameNeeds(s, MarkJobs(s, which)) && SameNeeds(s, RefreshDemand(Step(s, acts), false).s)
    ensures SameNeeds(s, ReanchorFastJobs(s)) && SameNeeds(s, RefreshAllDemanded(s))
  {
    hide SameNeeds;
    MarkKeepsNeeds(s, which);
    RefreshKeepsNeeds(s, acts);
    ReanchorKeepsNeeds(s);
    RetryKeepsNeeds(s);
  }

  lemma MarkKeepsNeeds(s: State, which: set<JobId>)
    ensures SameNeeds(s, MarkJobs(s, which))
  {
  }

  lemma RefreshKeepsNeeds(s: State, acts: seq<SchedulerAction>)
    ensures SameNeeds(s, RefreshDemand(Step(s, acts), false).s)
  {
    hide CurrentDemand, CancelWhere, PageWork;
  }

  lemma ReanchorKeepsNeeds(s: State)
    ensures SameNeeds(s, ReanchorFastJobs(s))
  {
  }

  lemma RetryKeepsNeeds(s: State)
    ensures SameNeeds(s, RefreshAllDemanded(s))
  {
    hide CurrentDemand, Sampling;
  }

  lemma ActivateKeepsNeeds(s: State, before: set<JobId>, after: set<JobId>, track: bool)
    ensures SameNeeds(s, ActivateJobs(s, before, after, track))
  {
    hide Sampling;
  }

  lemma ConfigWaits(s: State, config: SchedulerConfig)
    ensures WaitsForBlockers(Reconfigure(Step(s, []), config).s)
  {
    hide ReplaceJobs, ReanchorFastJobs, RefreshDemand, Publish, Marked, DiscoveryJobs, WaitsForBlockers, SameNeeds;
    var x1 := Step(Reset(s, config), []);
    var x2 := ReplaceJobs(x1, config.jobs, ConfigReplaced);
    ReplacedWaits(x1, config.jobs, ConfigReplaced);
    MarksKeepNeeds(x2.s, {}, []);
    var r := ReanchorFastJobs(x2.s);
    NeedsKept(x2.s, r);
    MarksKeepNeeds(r, {}, x2.acts);
    var x3 := RefreshDemand(Step(r, x2.acts), false);
    NeedsKept(r, x3.s);
    MarksKeepNeeds(x3.s, DiscoveryJobs(x3.s), []);
    var s4 := MarkJobs(x3.s, DiscoveryJobs(x3.s));
    NeedsKept(x3.s, s4);
    FeedKeepsNeeds(s4, Reconfigure(Step(s, []), config).s.feed);
    NeedsKept(s4, Reconfigure(Step(s, []), config).s);
  }

  lemma FeedKeepsNeeds(s: State, feed: Feed)
    ensures SameNeeds(s, s.(feed := feed))
  {
  }

  lemma InventoryWaits(s: State, update: InventoryUpdate)
    ensures WaitsForBlockers(ChangeInventory(Step(s, []), update).s)
  {
    hide ReplaceJobs, ActivateJobs, RefreshDemand, CurrentDemand, RefreshAllDemanded, Acknowledges, WaitsForBlockers, SameNeeds;
    var before := CurrentDemand(s);
    var x1 := Step(s.(settings := s.settings.(inventoryGeneration := update.generation, demand := update.demand)), []);
    var x2 := ReplaceJobs(x1, update.jobs, SourceReplaced);
    ReplacedWaits(x1, update.jobs, SourceReplaced);
    var s3 := if Acknowledges(s, update) then x2.s.(handshake := x2.s.handshake.(awaiting := None)) else x2.s;
    HandshakeKeepsNeeds(x2.s, s3.handshake);
    NeedsKept(x2.s, s3);
    var s4 := ActivateJobs(s3, before, CurrentDemand(s3), s3.view.effectivePresented);
    ActivateKeepsNeeds(s3, before, CurrentDemand(s3), s3.view.effectivePresented);
    NeedsKept(s3, s4);
    MarksKeepNeeds(s4, {}, x2.acts);
    var x5 := RefreshDemand(Step(s4, x2.acts), false);
    NeedsKept(s4, x5.s);
    MarksKeepNeeds(x5.s, {}, []);
    NeedsKept(x5.s, RefreshAllDemanded(x5.s));
  }

  lemma HandshakeKeepsNeeds(s: State, handshake: Handshake)
    ensures SameNeeds(s, s.(handshake := handshake))
  {
  }

  lemma RebuiltWaits(x: Step)
    ensures var y := RebuildFirstPaintBlockers(x).s;
      && WaitsForBlockers(y)
      && (y.paint.firstPaintIssued <==> x.s.paint.firstPaintIssued || forall id :: !Blocks(x.s, id))
  {
    hide Painted, FirstPaintSkips, Publish, FirstPaintBlockers, Wanted, CurrentDemand;
    var blockers := FirstPaintBlockers(x.s.runs.jobs, CurrentDemand(x.s));
    forall id
      ensures id in blockers <==> Blocks(x.s, id)
    {
      BlockersAre(x.s, id);
    }
    var blocked := Step(x.s.(paint := x.s.paint.(firstPaintWaiting := blockers)), x.acts);
    assert forall id :: Blocks(blocked.s, id) <==> Blocks(x.s, id) by { BlocksAgain(x.s, blocked.s); }
    PaintIssues(blocked);
    assert blockers == {} <==> forall id :: id !in blockers;
  }

  lemma BlocksAgain(a: State, b: State)
    requires b.settings == a.settings && b.view == a.view && b.runs == a.runs
    ensures forall id :: Blocks(a, id) <==> Blocks(b, id)
  {
  }

  lemma PaintIssues(x: Step)
    ensures IssueFirstPaint(x, FirstPaintReady).s.paint.firstPaintIssued
  {
    hide AdvancePast, Reanchored, FirstPaintSkips, Publish;
  }

  /** The state in which a new plan's blockers are counted. */
  function NewPlan(s: State, demand: DemandPlan): Step {
    var v := Viewed(s, DemandChanged(s.now, demand));
    var before, after := CurrentDemand(s), CurrentDemand(v);
    var x2 := CancelDemandEnded(Step(v, []), before, after);
    RefreshDemand(Step(ActivateJobs(x2.s, before, after, x2.s.view.effectivePresented), x2.acts), false)
  }

  lemma NewPlanBlocks(s: State, demand: DemandPlan)
    ensures var v, x4 := Viewed(s, DemandChanged(s.now, demand)), NewPlan(s, demand);
      && x4.s.paint == s.paint
      && forall id :: Blocks(v, id) <==> Blocks(x4.s, id)
  {
    hide CancelDemandEnded, ActivateJobs, RefreshDemand, CurrentDemand, Blocks;
    var v := Viewed(s, DemandChanged(s.now, demand));
    var before, after := CurrentDemand(s), CurrentDemand(v);
    var x2 := CancelDemandEnded(Step(v, []), before, after);
    EndedJobs(v, before, after);
    var s3 := ActivateJobs(x2.s, before, after, x2.s.view.effectivePresented);
    ActivateKeepsNeeds(x2.s, before, after, x2.s.view.effectivePresented);
    ActivatedDue(x2.s, before, after, x2.s.view.effectivePresented);
    RefreshKeepsNeeds(s3, x2.acts);
    RefreshDue(Step(s3, x2.acts));
    var x4 := RefreshDemand(Step(s3, x2.acts), false);
    forall id
      ensures Blocks(v, id) <==> Blocks(x4.s, id)
    {
      BlocksSame(v, x2.s, id);
      BlocksSame(x2.s, s3, id);
      BlocksSame(s3, x4.s, id);
    }
  }

  lemma DemandWaits(s: State, demand: DemandPlan)
    ensures var y := ChangeDemand(Step(s, []), demand).s; var v := Viewed(s, DemandChanged(s.now, demand));
      && WaitsForBlockers(y)
      && (y.paint.firstPaintIssued <==> s.paint.firstPaintIssued || forall id :: !Blocks(v, id))
  {
    hide CancelDemandEnded, ActivateJobs, RefreshDemand, RebuildFirstPaintBlockers, CurrentDemand, WaitsForBlockers, Blocks;
    assert ChangeDemand(Step(s, []), demand) == RebuildFirstPaintBlockers(NewPlan(s, demand));
    NewPlanBlocks(s, demand);
    RebuiltWaits(NewPlan(s, demand));
  }

  lemma BlocksSame(a: State, b: State, id: JobId)
    requires b.settings.demand == a.settings.demand && b.view.effectivePresented == a.view.effectivePresented
    requires b.view.selectedPage == a.view.selectedPage && b.runs.jobs.Keys == a.runs.jobs.Keys
    requires id in a.runs.jobs ==> b.runs.jobs[id].spec == a.runs.jobs[id].spec && b.runs.jobs[id].hasSample == a.runs.jobs[id].hasSample
    ensures Blocks(a, id) <==> Blocks(b, id)
  {
  }

  lemma StartWaits(s: State, config: SchedulerConfig, inventory: nat)
    requires s.paint.firstPaintWaiting == {} && !s.paint.firstPaintIssued
    ensures WaitsForBlockers(StartUp(Step(s, []), config, inventory).s)
  {
    hide TableOf, Wanted, CurrentDemand, Painted, FirstPaintSkips, Publish;
    var s1 := Started(s, config, inventory);
    var wanted := Sampling(CurrentDemand(s1), s1.runs.jobs);
    var s2 := MarkJobs(s1, wanted).(paint := s1.paint.(firstPaintWaiting := StartupPanel(wanted, s1.runs.jobs)));
    TableUnsampled(config.jobs, s.now, s.now + config.displayInterval);
    SameDemand(s1, s2);
    assert s1.paint.firstPaintWaiting + StartupPanel(wanted, s1.runs.jobs) == StartupPanel(wanted, s1.runs.jobs);
    forall id
      ensures id in s2.paint.firstPaintWaiting <==> Blocks(s2, id)
    {
      DemandIsWanted(s2, id);
    }
    PaintIssues(Step(s2, []));
    hide Blocks;
    assert !StartUp(Step(s, []), config, inventory).s.paint.firstPaintIssued ==> StartUp(Step(s, []), config, inventory).s == s2;
  }

  lemma {:induction false} TableUnsampled(specs: seq<JobSpec>, now: Time, display: Time)
    ensures forall id :: id in TableOf(specs, now, display) ==> !TableOf(specs, now, display)[id].hasSample
  {
    if specs != [] { TableUnsampled(specs[..|specs| - 1], now, display); }
  }

  /** After a start, a reload or a new plan, the first paint waits for exactly the wanted panel jobs that take samples of
      their own and have none yet. A new plan lets it out as soon as there are none. */
  lemma FirstPaintAwaits(s: State, e: SchedulerEvent)
    requires Inv(s) && EarlyRejection(s, e).None?
    requires e.Startup? || e.ConfigChanged? || e.InventoryChanged? || e.DemandChanged?
    ensures WaitsForBlockers(Handle(s, e).s)
    ensures e.DemandChanged? ==>
      (Handle(s, e).s.paint.firstPaintIssued <==> s.paint.firstPaintIssued || forall id :: !Blocks(Viewed(s, e), id))
  {
    hide Inv, Handle, StartUp, Reconfigure, ChangeInventory, ChangeDemand, EarlyRejection, WaitsForBlockers, Wanted;
    var s' := s.(now := e.at);
    SettleLeavesNeeds(s, e);
    match e
    case Startup(_, config, inventory) =>
      StartIsBare(s, e);
      StartWaits(s', config, inventory);
    case ConfigChanged(_, config) => ConfigWaits(s', config);
    case InventoryChanged(_, update) => InventoryWaits(s', update);
    case DemandChanged(_, demand) =>
      DemandWaits(s', demand);
      BlocksNow(s, e);
  }

  lemma StartIsBare(s: State, e: SchedulerEvent)
    requires Inv(s) && e.Startup? && EarlyRejection(s, e).None?
    ensures s.paint.firstPaintWaiting == {} && !s.paint.firstPaintIssued
  {
  }

  lemma BlocksNow(s: State, e: SchedulerEvent)
    ensures forall id :: Blocks(Viewed(s.(now := e.at), e), id) <==> Blocks(Viewed(s, e), id)
  {
  }

  lemma SettleLeavesNeeds(s: State, e: SchedulerEvent)
    requires Inv(s) && EarlyRejection(s, e).None?
    ensures var x := Apply(s.(now := e.at), e).0.s;
      && (WaitsForBlockers(x) ==> WaitsForBlockers(Handle(s, e).s))
      && Handle(s, e).s.paint == x.paint
  {
    hide Inv, Apply, Handle, EarlyRejection;
    SettleLeaves(s, e);
    var x := Apply(s.(now := e.at), e).0.s;
    if WaitsForBlockers(x) { NeedsKept(x, Handle(s, e).s); }
  }
}
