/** When an event is rejected, and what a rejected event has changed (src/scheduler/machine.rs). */
module SchedulerRejections {
  import opened Wrappers
  import opened SchedulerPolicy
  import opened SchedulerModel
  import opened SchedulerSpec
  import opened SchedulerSafety
  import opened SchedulerInvariant
  import opened SchedulerRuns
  import opened SchedulerSteps
  import opened SchedulerDispatch

  /** The guards before the event's arm leave everything as it was. */
  lemma EarlyRejectionChangesNothing(s: State, e: SchedulerEvent)
    requires EarlyRejection(s, e).Some?
    ensures Handle(s, e).s == s && Handle(s, e).acts == [] && Handle(s, e).disposition != Accepted
  {
  }

  /** The grace period of a hidden tooltip ends at `at`, and with it the demand for the page work `t`. */
  predicate EndsWithTooltip(s: State, at: Time, t: JobTicket) {
    && s.lifecycle == Running && Due(s.view.deactivationDeadline, at) && !s.view.presented
    && IsCancelledPageWork(t.job) && t.job !in s.settings.demand.Demanded(false, s.view.selectedPage)
  }

  /** Same runs in flight, same runs being cancelled. */
  ghost predicate SameFlights(a: State, b: State) {
    && b.settings == a.settings && b.lifecycle == a.lifecycle && b.runs.cancelling == a.runs.cancelling
    && b.runs.jobs.Keys == a.runs.jobs.Keys
    && forall id :: id in a.runs.jobs ==> b.runs.jobs[id].inFlight == a.runs.jobs[id].inFlight
  }

  lemma FlightsChain(a: State, b: State, c: State)
    requires SameFlights(a, b) && SameFlights(b, c)
    ensures SameFlights(a, c)
  {
  }

  lemma FirstPaintFlights(x: Step)
    ensures SameFlights(x.s, ExpireFirstPaint(x).s)
  {
    hide Publish, DueIntervals, AdvancePast;
  }

  lemma ActivationFlights(x: Step)
    ensures SameFlights(x.s, ExpireActivation(x).s) && SameFlights(x.s, DisplayTick(x).s)
  {
    hide Publish, SkippedIntervals, AdvancePast;
  }

  lemma JobTimerFlights(s: State)
    ensures SameFlights(s, TimeJobs(s))
  {
    hide TimedRuntime, HistoryReady, CurrentDemand;
    forall id | id in s.runs.jobs
      ensures TimeJobs(s).runs.jobs[id].inFlight == s.runs.jobs[id].inFlight
    {
      TimedFlight(s.runs.jobs[id], HistoryReady(s.runs.jobs[id].spec, s.runs.jobs), s.now);
    }
  }

  lemma TimedFlight(rt: JobRuntime, ready: bool, now: Time)
    ensures TimedRuntime(rt, ready, now).inFlight == rt.inFlight
  {
    hide AdvancePast, LatestDueAtOrBefore;
  }

  /** The end of the grace period cancels exactly the page work no longer demanded. */
  lemma DeactivationFlights(x: Step, t: JobTicket)
    requires Flying(x.s.runs, t) && x.s.lifecycle == Running
    ensures var y := ExpireDeactivation(x);
      && y.s.settings == x.s.settings && y.s.lifecycle == x.s.lifecycle
      && (Flying(y.s.runs, t) <==> !EndsWithTooltip(x.s, x.s.now, t))
  {
    hide Moved, AddTickets, CancelActions, DemandPlan.Demanded;
    if Due(x.s.view.deactivationDeadline, x.s.now) && !x.s.view.presented {
      var s1 := x.s.(view := x.s.view.(deactivationDeadline := None, effectivePresented := false));
      assert CurrentDemand(s1) == x.s.settings.demand.Demanded(false, x.s.view.selectedPage);
    }
  }

  lemma ProcessedFlights(x: Step, t: JobTicket)
    requires Flying(x.s.runs, t) && x.s.lifecycle == Running
    ensures var y := ProcessTime(x);
      && y.s.settings == x.s.settings
      && (Flying(y.s.runs, t) <==> !EndsWithTooltip(x.s, x.s.now, t))
  {
    hide ExpireDeactivation, ExpireFirstPaint, ExpireActivation, DisplayTick, TimeJobs, EndsWithTooltip;
    DeactivationFlights(x, t);
    var a := ExpireDeactivation(x);
    var b := ExpireFirstPaint(a);
    var c := ExpireActivation(b);
    var d := DisplayTick(c);
    FirstPaintFlights(a);
    ActivationFlights(b);
    ActivationFlights(c);
    JobTimerFlights(d.s);
    FlightsChain(a.s, b.s, c.s);
    FlightsChain(a.s, c.s, d.s);
    FlightsChain(a.s, d.s, TimeJobs(d.s));
  }

  /** An event that passes the guards is rejected exactly when it is the result of page work whose demand ends
      at that very instant, with the grace period of the tooltip; the time that ends it has been processed. */
  lemma LateRejectionIff(s: State, e: SchedulerEvent)
    requires Inv(s) && EarlyRejection(s, e).None?
    ensures Handle(s, e).disposition != Accepted <==>
      e.JobFinished? && !Cancelling(s.runs, e.ticket) && EndsWithTooltip(s, e.at, e.ticket)
  {
    hide ProcessTime, FinishJob, Settle, SortActions, EndsWithTooltip, Inv;
    var s1 := s.(now := e.at);
    if e.JobFinished? && !Cancelling(s.runs, e.ticket) {
      assert IsCurrentTicket(s, e.ticket);
      ProcessedFlights(Step(s1, []), e.ticket);
      EndsSame(s, e.at, e.ticket);
    } else if e.JobCancelled? {
      CancelledIsAccepted(s, e);
    } else {
      OthersAreAccepted(s, e);
    }
  }

  lemma EndsSame(s: State, at: Time, t: JobTicket)
    ensures EndsWithTooltip(s.(now := at), at, t) <==> EndsWithTooltip(s, at, t)
  {
  }

  lemma CancelledIsAccepted(s: State, e: SchedulerEvent)
    requires Inv(s) && EarlyRejection(s, e).None? && e.JobCancelled?
    ensures Handle(s, e).disposition == Accepted
  {
    hide Settle, SortActions, TimeFirst, Sound, Inv;
    var s1 := s.(now := e.at);
    assert Ready(s1) by { InvIsReady(s, e); }
    TimeFirstIsCalm(s1);
    CalmIsArmOk(s1, TimeFirst(s1));
    CancellingStays(s1, TimeFirst(s1), e.ticket);
  }

  lemma OthersAreAccepted(s: State, e: SchedulerEvent)
    requires EarlyRejection(s, e).None? && !e.JobCancelled? && (e.JobFinished? ==> Cancelling(s.runs, e.ticket))
    ensures Handle(s, e).disposition == Accepted
  {
    hide Settle, SortActions, TimeFirst, IsStale;
    hide StartUp, Reconfigure, ChangeInventory, ChangeDemand, ChangePresentation, RefreshActivation, ChangePage;
    hide IssuePublish, ApplyTrigger, SuspendNow, ResumeNow, StopNow;
  }

  /** Such a result closes nothing: its run is being cancelled from then on, and still holds its owner. */
  lemma LateRejectionIsHeld(s: State, e: SchedulerEvent)
    requires Inv(s) && EarlyRejection(s, e).None? && Handle(s, e).disposition != Accepted
    ensures e.JobFinished? && Cancelling(Handle(s, e).s.runs, e.ticket)
  {
    hide ProcessTime, FinishJob, Dispatch, WakeActions, SortActions, EndsWithTooltip, Inv, Calm, Sound, Occupancy;
    LateRejectionIff(s, e);
    var s1, t := s.(now := e.at), e.ticket;
    assert IsCurrentTicket(s, t);
    assert Ready(s1) by { InvIsReady(s, e); }
    TimeFirstIsCalm(s1) by { ReadyFacts(s1); }
    CalmIsArmOk(s1, TimeFirst(s1));
    ProcessedFlights(Step(s1, []), t);
    EndsSame(s, e.at, t);
    assert Outstanding(s1.runs, t);
    assert Outstanding(TimeFirst(s1).s.runs, t);
    assert !Flying(TimeFirst(s1).s.runs, t);
  }

  lemma GraceIsOver(x: Step)
    requires Due(x.s.view.deactivationDeadline, x.s.now)
    ensures ProcessTime(x).s.view.deactivationDeadline.None?
  {
    hide ExpireDeactivation, ExpireFirstPaint, ExpireActivation, DisplayTick, TimedJobs;
    DeactivationCleared(x);
    var a := ExpireDeactivation(x);
    var b := ExpireFirstPaint(a);
    FirstPaintKeepsView(a);
    LaterKeepDeadline(b);
    LaterKeepDeadline(ExpireActivation(b));
  }

  lemma DeactivationCleared(x: Step)
    requires Due(x.s.view.deactivationDeadline, x.s.now)
    ensures ExpireDeactivation(x).s.view.deactivationDeadline.None?
  {
    hide CancelRuns, CancelActions, Moved;
  }

  lemma FirstPaintKeepsView(x: Step)
    ensures ExpireFirstPaint(x).s.view == x.s.view
  {
    hide Publish, DueIntervals, AdvancePast;
  }

  lemma LaterKeepDeadline(x: Step)
    ensures ExpireActivation(x).s.view.deactivationDeadline == x.s.view.deactivationDeadline
    ensures DisplayTick(x).s.view == x.s.view
  {
    hide Publish, SkippedIntervals, AdvancePast;
  }

  /** A rejected event has changed nothing exactly when a guard turned it away. */
  lemma RejectionIsSilentIff(s: State, e: SchedulerEvent)
    requires Inv(s) && Handle(s, e).disposition != Accepted
    ensures Handle(s, e).s == s <==> EarlyRejection(s, e).Some?
    ensures EarlyRejection(s, e).Some? ==> Handle(s, e).acts == []
  {
    hide ProcessTime, FinishJob, Dispatch, WakeActions, SortActions, Inv;
    if EarlyRejection(s, e).Some? {
      EarlyRejectionChangesNothing(s, e);
    } else {
      LateRejectionIff(s, e);
      GraceIsOver(Step(s.(now := e.at), []));
    }
  }

  // ----- a run that ends in a late rejection

  const PAGE_JOB := JobId(0, PAGE_COMMAND, 0)
  const PAGE_SPEC := JobSpec(None, PAGE_JOB, Triggered, 1_000_000_000, None, false, false, false)
  const PAGE_CONFIG := SchedulerConfig(1, 1_000_000_000, [PAGE_SPEC], DemandPlan({}, {}, map[Main := {PAGE_JOB}]))
  const PAGE_TICKET := JobTicket({}, 1, PAGE_JOB, 1, 1, None)

  /** Started at time zero with the one page job, in the given state of presentation. */
  ghost predicate Shows(s: State, presented: bool, effective: bool, deadline: Option<Time>) {
    && s.lifecycle == Running && s.now == 0 && s.handshake.awaiting.None?
    && s.settings == Settings(1, 1, 1_000_000_000, PAGE_CONFIG.demand)
    && s.view.presented == presented && s.view.effectivePresented == effective && s.view.selectedPage == Main
    && s.view.deactivationDeadline == deadline
  }

  ghost predicate Idle(s: State) {
    s.runs == Runs(map[PAGE_JOB := NewRuntime(PAGE_SPEC, 0, 1_000_000_000)], map[], map[], 1)
  }

  ghost predicate Busy(s: State) {
    && s.runs.jobs.Keys == {PAGE_JOB} && s.runs.cancelling == map[]
    && s.runs.jobs[PAGE_JOB].inFlight == Some(PAGE_TICKET)
  }

  lemma NothingToStart(x: Step)
    requires Candidates(x.s) == {}
    ensures Dispatch(x) == x
  {
    hide Candidates;
    var queue := CandidatesInOrder(Candidates(x.s));
    assert queue == [] by { NoCandidates(queue); }
  }

  lemma NoCandidates(queue: seq<Candidate>)
    ensures queue == [] || exists c :: c in queue
    ensures |queue| > 1 ==> queue[0] in queue && queue[1] in queue
  {
    if queue != [] { assert queue[0] in queue; }
  }

  lemma OneToStart(x: Step, c: Candidate)
    requires Candidates(x.s) == {c} && c.id in x.s.runs.jobs && x.s.lifecycle == Running && x.s.handshake.awaiting.None?
    ensures Dispatch(x) == StartOne(x, c.id)
  {
    hide Candidates, StartOne;
    var queue := CandidatesInOrder(Candidates(x.s));
    CandidatesListed(x.s);
    NoCandidates(queue);
    assert queue == [c];
    StartsOne(x, c);
  }

  lemma StartsOne(x: Step, c: Candidate)
    requires c.id in x.s.runs.jobs
    ensures StartEach(x, [c]) == StartOne(x, c.id)
  {
    hide StartOne;
    var none: seq<Candidate> := [];
    assert [c][..0] == none && StartEach(x, none) == x;
  }

  lemma OneJob(spec: JobSpec, anchor: Time, display: Time)
    ensures TableOf([spec], anchor, display) == map[spec.id := NewRuntime(spec, anchor, display)]
  {
    var none: seq<JobSpec> := [];
    assert [spec][..0] == none && TableOf(none, anchor, display) == map[];
  }

  lemma StartsIdle()
    ensures var s := Handle(INITIAL, Startup(0, PAGE_CONFIG, 1)).s; Shows(s, false, false, None) && Idle(s)
  {
    hide SortActions, Publish, FirstPaintSkips, NextWake, InOrder, Dispatch, Candidates, Startable;
    var e := Startup(0, PAGE_CONFIG, 1);
    var x := Apply(INITIAL, e).0;
    OneJob(PAGE_SPEC, 0, 1_000_000_000);
    var s1 := Started(INITIAL, PAGE_CONFIG, 1);
    assert s1.runs.jobs == map[PAGE_JOB := NewRuntime(PAGE_SPEC, 0, 1_000_000_000)];
    assert Sampling(CurrentDemand(s1), s1.runs.jobs) == {};
    assert Marked(s1.runs.jobs, {}, 0) == s1.runs.jobs;
    assert Shows(x.s, false, false, None) && Idle(x.s);
    assert Candidates(x.s) == {} by { IdleIsUndemanded(x.s); }
    NothingToStart(x);
  }

  lemma IdleIsUndemanded(s: State)
    requires Idle(s)
    ensures Candidates(s) == {}
  {
    hide CurrentDemand;
  }

  /** The page job marked pending, with the tooltip shown. */
  ghost predicate PageWanted(s: State) {
    && Shows(s, true, true, None)
    && s.runs == Runs(map[PAGE_JOB := NewRuntime(PAGE_SPEC, 0, 1_000_000_000).MarkPending(0)], map[], map[], 1)
  }

  lemma PresentedWants(s: State)
    requires Shows(s, false, false, None) && Idle(s)
    ensures PageWanted(Apply(s, TooltipPresented(0, true)).0.s)
  {
    hide Publish;
    var s1 := s.(view := s.view.(presented := true, deactivationDeadline := None, effectivePresented := true));
    var after := CurrentDemand(s1);
    assert s1.settings.demand.Demanded(false, Main) == {};
    assert after == {PAGE_JOB};
    assert Sampling(after - {}, s1.runs.jobs) == {PAGE_JOB};
    var s2 := ActivateJobs(s1, {}, after, true);
    assert after - {} == after;
    assert s2.runs.jobs == map[PAGE_JOB := NewRuntime(PAGE_SPEC, 0, 1_000_000_000).MarkPending(0)];
    assert PAGE_JOB in s2.view.activationWaiting;
    assert Stale(s2.runs.jobs) == {};
    assert Marked(s2.runs.jobs, {}, 0) == s2.runs.jobs;
  }

  lemma WantedStarts(x: Step)
    requires PageWanted(x.s)
    ensures Shows(Dispatch(x).s, true, true, None) && Busy(Dispatch(x).s)
  {
    hide Dispatch;
    assert CurrentDemand(x.s) == {PAGE_JOB};
    var c := RankOf(x.s, PAGE_JOB);
    assert Candidates(x.s) == {c};
    OneToStart(x, c);
  }

  lemma PresentedStarts(s: State)
    requires Shows(s, false, false, None) && Idle(s)
    ensures var r := Handle(s, TooltipPresented(0, true)).s; Shows(r, true, true, None) && Busy(r)
  {
    hide SortActions, NextWake, Apply, Dispatch, Busy;
    var e := TooltipPresented(0, true);
    var x := Apply(s, e).0;
    assert s.(now := 0) == s;
    PresentedWants(s);
    WantedStarts(x);
    assert Apply(s, e).1 == Accepted by { PresentationAccepted(s, e); }
  }

  lemma PresentationAccepted(s: State, e: SchedulerEvent)
    requires e.TooltipPresented?
    ensures Apply(s, e) == (ChangePresentation(Step(s, []), e.presented), Accepted)
  {
    hide ChangePresentation;
  }

  lemma HiddenKeepsRunning(s: State)
    requires Shows(s, true, true, None) && Busy(s)
    ensures var r := Handle(s, TooltipPresented(0, false)).s; Shows(r, false, true, Some(DEACTIVATION_GRACE)) && Busy(r)
  {
    hide SortActions, NextWake, Apply, Dispatch;
    var e := TooltipPresented(0, false);
    assert s.(now := 0) == s;
    PresentationAccepted(s, e);
    var x := Apply(s, e).0;
    assert Candidates(x.s) == {};
    NothingToStart(x);
  }

  lemma RunOneMore(s: State, events: seq<SchedulerEvent>, e: SchedulerEvent)
    ensures Run(s, events + [e]) == Handle(Run(s, events), e).s
  {
    hide Handle;
    assert (events + [e])[..|events|] == events;
  }

  /** The result of a page job that arrives at the very end of the grace period passes the guards and is
      rejected all the same. */
  lemma LateRejectionHappens()
    ensures exists events: seq<SchedulerEvent>, e: SchedulerEvent ::
      EarlyRejection(Run(INITIAL, events), e).None? && Handle(Run(INITIAL, events), e).disposition == RejectedStale
  {
    hide Handle, Run, Busy, Idle;
    var e1, e2, e3 := Startup(0, PAGE_CONFIG, 1), TooltipPresented(0, true), TooltipPresented(0, false);
    RunNothing();
    StartsIdle();
    RunOneMore(INITIAL, [], e1);
    var s1 := Run(INITIAL, [] + [e1]);
    PresentedStarts(s1);
    RunOneMore(INITIAL, [] + [e1], e2);
    var s2 := Run(INITIAL, [] + [e1] + [e2]);
    HiddenKeepsRunning(s2);
    RunOneMore(INITIAL, [] + [e1] + [e2], e3);
    var events := [] + [e1] + [e2] + [e3];
    InitialInvariant();
    RunKeepsInvariant(INITIAL, events);
    TooLate(Run(INITIAL, events));
  }

  lemma RunNothing()
    ensures Run(INITIAL, []) == INITIAL
  {
  }

  lemma TooLate(s: State)
    requires Inv(s) && Shows(s, false, true, Some(DEACTIVATION_GRACE)) && Busy(s)
    ensures var e := JobFinished(DEACTIVATION_GRACE, PAGE_TICKET, Captured, false);
      EarlyRejection(s, e).None? && Handle(s, e).disposition == RejectedStale
  {
    hide Inv, TimeFirst, Settle, SortActions, FinishJob;
    var e := JobFinished(DEACTIVATION_GRACE, PAGE_TICKET, Captured, false);
    assert EarlyRejection(s, e).None?;
    LateRejectionIff(s, e);
  }

  // ----- which events are accepted

  /** What an event must refer to: a newer configuration or inventory, a run that is not over, a publication that the
      panel has still to acknowledge. */
  ghost predicate Refers(s: State, e: SchedulerEvent) {
    && (e.ConfigChanged? ==> e.config.generation > s.settings.configGeneration)
    && (e.InventoryChanged? ==> e.update.generation > s.settings.inventoryGeneration)
    && (e.JobFinished? ==> Outstanding(s.runs, e.ticket) && !(Flying(s.runs, e.ticket) && EndsWithTooltip(s, e.at, e.ticket)))
    && (e.JobCancelled? ==> Cancelling(s.runs, e.ticket))
    && (e.PanelPublished? ==> e.publication in s.feed.panelPublications)
  }

  /** An event is accepted exactly when it is not from the past, the scheduler has been started, or is by it, and not
      stopped, and what it refers to is current. */
  lemma AcceptedIff(s: State, e: SchedulerEvent)
    requires Inv(s)
    ensures Handle(s, e).disposition == Accepted <==>
      && (s.lifecycle == Unstarted || s.now <= e.at) && s.lifecycle != Stopped && (e.Startup? <==> s.lifecycle == Unstarted)
      && Refers(s, e)
  {
    hide Inv, Handle, EndsWithTooltip, Cancelling, Flying;
    if EarlyRejection(s, e).Some? {
      EarlyRejectionChangesNothing(s, e);
      if e.JobFinished? { FlyingIsCurrent(s, e.ticket); }
    } else {
      LateRejectionIff(s, e);
      if e.JobFinished? {
        FlyingIsCurrent(s, e.ticket);
        NotBoth(s, e.ticket);
      }
    }
  }

  lemma FlyingIsCurrent(s: State, t: JobTicket)
    requires Inv(s)
    ensures Flying(s.runs, t) <==> IsCurrentTicket(s, t)
  {
    if Flying(s.runs, t) { assert s.lifecycle != Unstarted; }
  }

  lemma NotBoth(s: State, t: JobTicket)
    requires Inv(s)
    ensures !(Flying(s.runs, t) && Cancelling(s.runs, t))
  {
  }

  // ----- generations

  ghost predicate SameSettings(a: State, b: State) {
    b.settings.configGeneration == a.settings.configGeneration && b.settings.inventoryGeneration == a.settings.inventoryGeneration
  }

  /** What one event does to the generations. */
  lemma EventGenerations(s: State, e: SchedulerEvent)
    requires Inv(s)
    ensures var out := Handle(s, e);
      && out.s.settings.configGeneration == (if out.disposition == Accepted && e.Startup? then e.config.generation
                                             else if out.disposition == Accepted && e.ConfigChanged? then e.config.generation
                                             else s.settings.configGeneration)
      && out.s.settings.inventoryGeneration == (if out.disposition == Accepted && e.Startup? then e.inventoryGeneration
                                                else if out.disposition == Accepted && e.InventoryChanged? then e.update.generation
                                                else s.settings.inventoryGeneration)
  {
    hide Inv, Apply, Settle, SortActions, EarlyRejection;
    if EarlyRejection(s, e).Some? {
      EarlyRejectionChangesNothing(s, e);
    } else {
      var s' := s.(now := e.at);
      ArmGenerations(s, e);
      SettleGenerations(Apply(s', e).0, Apply(s', e).1);
    }
  }

  lemma SettleGenerations(x: Step, d: EventDisposition)
    ensures Settle(x, d).s.settings == x.s.settings
  {
    hide StartEach, CandidatesInOrder, Candidates, NextWake;
    if d == Accepted && x.s.lifecycle == Running && x.s.handshake.awaiting.None? {
      CandidatesListed(x.s);
      StartEachSettings(x, CandidatesInOrder(Candidates(x.s)));
    }
  }

  lemma {:induction false} StartEachSettings(x: Step, cs: seq<Candidate>)
    requires Listed(x.s.runs.jobs, cs)
    ensures StartEach(x, cs).s.settings == x.s.settings
  {
    hide Launch, TicketFor;
    if cs != [] { StartEachSettings(x, cs[..|cs| - 1]); }
  }

  lemma ArmGenerations(s: State, e: SchedulerEvent)
    requires Inv(s) && EarlyRejection(s, e).None?
    ensures var (x, d) := Apply(s.(now := e.at), e);
      && x.s.settings.configGeneration == (if e.Startup? || e.ConfigChanged? then e.config.generation else s.settings.configGeneration)
      && x.s.settings.inventoryGeneration == (if e.Startup? then e.inventoryGeneration
                                              else if e.InventoryChanged? then e.update.generation else s.settings.inventoryGeneration)
      && (e.Startup? || e.ConfigChanged? || e.InventoryChanged? ==> d == Accepted)
  {
    hide Inv, Apply, StartUp, Reconfigure, ChangeInventory, EarlyRejection, Ready, Occupancy, ChangeDemand, ChangePage;
    var s' := s.(now := e.at);
    if e.Startup? {
      StartGenerations(s', e.config, e.inventoryGeneration);
      ApplyStartup(s', e);
    } else {
      assert s.lifecycle != Unstarted by { GuardsStarted(s, e); }
      InvIsReady(s, e);
      assert Occupancy(s'.runs) by { ReadyFacts(s'); }
      OtherGenerations(s', e);
    }
  }

  lemma GuardsStarted(s: State, e: SchedulerEvent)
    requires EarlyRejection(s, e).None? && !e.Startup?
    ensures s.lifecycle != Unstarted
  {
  }

  lemma StartGenerations(s: State, config: SchedulerConfig, inventory: nat)
    ensures var y := StartUp(Step(s, []), config, inventory).s.settings;
      y.configGeneration == config.generation && y.inventoryGeneration == inventory
  {
    hide TableOf, CurrentDemand, Sampling, StartupPanel, Painted, Publish, FirstPaintSkips;
    PaintedSettings(MarkJobs(Started(s, config, inventory), {}));
    var s1 := Started(s, config, inventory);
    var wanted := Sampling(CurrentDemand(s1), s1.runs.jobs);
    PaintedSettings(MarkJobs(s1, wanted).(paint := s1.paint.(firstPaintWaiting := s1.paint.firstPaintWaiting + StartupPanel(wanted, s1.runs.jobs))));
  }

  lemma PaintedSettings(s: State)
    ensures Painted(s).settings == s.settings
  {
    hide AdvancePast, Reanchored;
  }

  lemma OtherGenerations(s: State, e: SchedulerEvent)
    requires Occupancy(s.runs) && !e.Startup? && e.at == s.now
    ensures var (x, d) := Apply(s, e);
      && x.s.settings.configGeneration == (if e.ConfigChanged? then e.config.generation else s.settings.configGeneration)
      && x.s.settings.inventoryGeneration == (if e.InventoryChanged? then e.update.generation else s.settings.inventoryGeneration)
      && (e.ConfigChanged? || e.InventoryChanged? ==> d == Accepted)
  {
    hide Occupancy, Reconfigure, ChangeInventory, ChangeDemand, ChangePresentation, RefreshActivation, ChangePage, Publish, TimeFirst,
         FinishJob, Trigger, FinishCancellation, Cancelling, Finishes, CancelWhere, ResumeNow, Calm, Sound;
    var x := Step(s, []);
    match e
    case ConfigChanged(_, config) => ConfigGenerations(s, config);
    case InventoryChanged(_, update) => InventoryGenerations(s, update);
    case DemandChanged(_, demand) =>
      ChangeDemandIsCalm(x, demand);
      CalmGenerations(x, ChangeDemand(x, demand));
    case TooltipPresented(_, presented) =>
      ChangePresentationIsCalm(x, presented);
      CalmGenerations(x, ChangePresentation(x, presented));
    case TooltipReactivated(_) =>
      RefreshActivationIsCalm(x);
      CalmGenerations(x, RefreshActivation(x));
    case SelectedPageChanged(_, page) =>
      ChangePageIsCalm(x, page);
      CalmGenerations(x, ChangePage(x, page));
    case Resume(_) => ResumeGenerations(s);
    case Suspend(_) => CancelGenerations(x, ForSuspend);
    case Shutdown(_) => CancelGenerations(x, ForShutdown);
    case CriticalFailure(_, _) => CancelGenerations(x, ForCriticalFailure);
    case PanelPublished(_, _) =>
    case DisplayRefreshRequested(_) =>
    case TooltipRefreshRequested(_) =>
    case _ =>
      TimeFirstIsCalm(s);
      CalmGenerations(x, TimeFirst(s));
      TailGenerations(TimeFirst(s), e);
  }

  lemma CalmGenerations(x: Step, y: Step)
    requires Calm(x, y)
    ensures SameSettings(x.s, y.s)
  {
  }

  lemma CancelGenerations(x: Step, reason: CancelReason)
    ensures CancelAll(x, reason).s.settings == x.s.settings
  {
  }

  lemma ResumeGenerations(s: State)
    ensures ResumeNow(Step(s, [])).s.settings == s.settings
  {
    hide Reanchored, ResumedJobs, CurrentDemand, BaselineResets;
  }

  lemma TailGenerations(x: Step, e: SchedulerEvent)
    ensures e.RefreshTriggered? ==> Trigger(x.s, e.job).settings == x.s.settings
    ensures e.JobFinished? || e.JobCancelled? ==> FinishCancellation(x.s, e.ticket).settings == x.s.settings
    ensures e.JobFinished? && Finishes(x.s, e.ticket) ==>
              FinishJob(x, e.ticket, e.completion, e.notificationReady).s.settings == x.s.settings
  {
    hide Marked, Sampling, CompletedJobs, CompletionActions, Painted, FirstPaintSkips, Publish;
    if e.JobFinished? && Finishes(x.s, e.ticket) { PaintedSettings(LandRun(x.s, e.ticket, e.completion)); }
  }

  lemma ReplacedGenerations(x: Step, specs: seq<JobSpec>, reason: CancelReason)
    ensures ReplaceJobs(x, specs, reason).s.settings == x.s.settings
  {
    hide CancelRuns, CancelActions, ReplaceEach, InvalidateAll, FirstPaintBlockers, CurrentDemand;
  }

  lemma ConfigGenerations(s: State, config: SchedulerConfig)
    ensures var y := Reconfigure(Step(s, []), config).s.settings;
      y.configGeneration == config.generation && y.inventoryGeneration == s.settings.inventoryGeneration
  {
    hide ReplaceJobs, Reanchored, DemandRefreshed, CancelWhere, CurrentDemand, PageWork, Publish, Marked, DiscoveryJobs;
    ReplacedGenerations(Step(Reset(s, config), []), config.jobs, ConfigReplaced);
  }

  lemma InventoryGenerations(s: State, update: InventoryUpdate)
    ensures var y := ChangeInventory(Step(s, []), update).s.settings;
      y.configGeneration == s.settings.configGeneration && y.inventoryGeneration == update.generation
  {
    hide ReplaceJobs, DemandRefreshed, CancelWhere, CurrentDemand, PageWork, Marked, AllRetried, Sampling, Acknowledges;
    ReplacedGenerations(Step(s.(settings := s.settings.(inventoryGeneration := update.generation, demand := update.demand)), []),
                        update.jobs, SourceReplaced);
  }

  /** The generation of the last configuration accepted, and of the last inventory. */
  function LastConfig(events: seq<SchedulerEvent>): nat {
    if events == [] then 0
    else
      var last := |events| - 1;
      var e := events[last];
      if (e.Startup? || e.ConfigChanged?) && Handle(Run(INITIAL, events[..last]), e).disposition == Accepted
      then e.config.generation else LastConfig(events[..last])
  }

  function LastInventory(events: seq<SchedulerEvent>): nat {
    if events == [] then 0
    else
      var last := |events| - 1;
      var e := events[last];
      if e.Startup? && Handle(Run(INITIAL, events[..last]), e).disposition == Accepted then e.inventoryGeneration
      else if e.InventoryChanged? && Handle(Run(INITIAL, events[..last]), e).disposition == Accepted then e.update.generation
      else LastInventory(events[..last])
  }

  lemma {:induction false} GenerationsAreLast(events: seq<SchedulerEvent>)
    ensures var s := Run(INITIAL, events).settings;
      s.configGeneration == LastConfig(events) && s.inventoryGeneration == LastInventory(events)
  {
    hide Handle, Inv;
    if events != [] {
      var last := |events| - 1;
      GenerationsAreLast(events[..last]);
      InitialInvariant();
      RunKeepsInvariant(INITIAL, events[..last]);
      EventGenerations(Run(INITIAL, events[..last]), events[last]);
    }
  }

  /** Over every run that has been started and not stopped, a configuration or inventory that is not from the past is
      accepted exactly when its generation is above that of the last one accepted. */
  lemma NewerIsAcceptedIff(events: seq<SchedulerEvent>, e: SchedulerEvent)
    requires var s := Run(INITIAL, events); s.lifecycle in {Running, Suspended} && s.now <= e.at
    ensures e.ConfigChanged? ==>
      (Handle(Run(INITIAL, events), e).disposition == Accepted <==> e.config.generation > LastConfig(events))
    ensures e.InventoryChanged? ==>
      (Handle(Run(INITIAL, events), e).disposition == Accepted <==> e.update.generation > LastInventory(events))
  {
    hide Handle, Inv, Run, LastConfig, LastInventory;
    GenerationsAreLast(events);
    InitialInvariant();
    RunKeepsInvariant(INITIAL, events);
    AcceptedIff(Run(INITIAL, events), e);
  }

  /** Over every run, a result that is not from the past is accepted exactly when an observer's ledger has its run, but
      for page work that loses its demand at that very instant. */
  lemma ResultIsAcceptedIff(events: seq<SchedulerEvent>, e: SchedulerEvent)
    requires var s := Run(INITIAL, events); s.lifecycle in {Running, Suspended} && s.now <= e.at && e.JobFinished?
    ensures var s := Run(INITIAL, events);
      Handle(s, e).disposition == Accepted <==>
        e.ticket in Ledger(events) && !(Flying(s.runs, e.ticket) && EndsWithTooltip(s, e.at, e.ticket))
  {
    hide Handle, Inv, Run, Ledger, EndsWithTooltip, Flying, Cancelling;
    InitialInvariant();
    RunKeepsInvariant(INITIAL, events);
    LedgerIsOutstanding(events, e.ticket);
    AcceptedIff(Run(INITIAL, events), e);
  }
}
