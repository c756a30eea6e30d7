/** The display clock over runs of any events that leave it running: whichever of them process the time, the
    deadlines published and the deadlines reported as skipped add up (src/scheduler/machine.rs). */
module SchedulerClock {
  import opened Wrappers
  import opened SchedulerPolicy
  import opened SchedulerModel
  import opened SchedulerSpec
  import opened SchedulerSteps
  import opened SchedulerInvariant
  import opened SchedulerRuns
  import opened SchedulerTiming

  /** The step leaves the display clock alone and accounts for no deadline. */
  ghost predicate Unclocked(x: Step, y: Step) {
    && y.s.paint.nextDisplay == x.s.paint.nextDisplay && y.s.paint.firstPaintIssued == x.s.paint.firstPaintIssued
    && y.s.settings.displayInterval == x.s.settings.displayInterval
    && y.s.lifecycle == x.s.lifecycle && y.s.now == x.s.now
    && DisplayCount(y.acts) == DisplayCount(x.acts)
  }

  lemma UnclockedChain(x: Step, y: Step, z: Step)
    requires Unclocked(x, y) && Unclocked(y, z)
    ensures Unclocked(x, z)
  {
    hide DisplayCount;
  }

  // ----- steps that process no time

  lemma PublishUnclocked(x: Step, why: PublishReason, deadline: Option<Time>, skipped: nat, panel: bool, tooltip: bool)
    requires why != DisplayDeadline
    ensures Unclocked(x, IssuePublish(x, why, deadline, skipped, panel, tooltip))
  {
    hide Publish, DisplayCount;
    PublishCount(Outbound(x.s.feed, x.acts), why, deadline, skipped, panel, tooltip && x.s.view.presented);
  }

  lemma CancelUnclocked(x: Step, which: set<JobId>, reason: CancelReason)
    ensures Unclocked(x, CancelWhere(x, which, reason))
  {
    hide CancelRuns, Moved, CancelActions;
    var cancels := CancelActions(Moved(x.s.runs.jobs, which), reason);
    CountNone(cancels);
    CountAppend(x.acts, cancels);
  }

  lemma RefreshDemandUnclocked(x: Step, cancelPageJobs: bool)
    ensures Unclocked(x, RefreshDemand(x, cancelPageJobs))
  {
    hide CancelWhere, DemandRefreshed, CurrentDemand, DisplayCount;
    var demanded := CurrentDemand(x.s);
    var y := Step(WithJobs(x.s, DemandRefreshed(x.s.runs.jobs, demanded, x.s.now)), x.acts);
    CancelUnclocked(y, PageWork(x.s.runs.jobs.Keys - demanded), DemandEnded);
  }

  lemma CancelEndedUnclocked(x: Step, before: set<JobId>, after: set<JobId>)
    ensures Unclocked(x, CancelDemandEnded(x, before, after))
  {
    hide CancelWhere, AllRested, PageWork, DisplayCount;
    var ended := PageWork(before - after);
    CancelUnclocked(Step(WithJobs(x.s, AllRested(x.s.runs.jobs, ended)), x.acts), ended, DemandEnded);
  }

  lemma ActivateUnclocked(x: Step, before: set<JobId>, after: set<JobId>, track: bool)
    ensures Unclocked(x, Step(ActivateJobs(x.s, before, after, track), x.acts))
  {
    hide Marked, Sampling, DisplayCount;
  }

  lemma RefreshActivationUnclocked(x: Step)
    ensures Unclocked(x, RefreshActivation(x))
  {
    hide Marked, Stale, IssuePublish, DisplayCount;
    var s1 := MarkJobs(x.s, Stale(x.s.runs.jobs)).(
      view := x.s.view.(activationWaiting := x.s.view.activationWaiting + Stale(x.s.runs.jobs)));
    PublishUnclocked(Step(s1, x.acts), TooltipActivated, None, 0, false, true);
  }

  lemma {:induction false} ReplaceEachCount(r: Replacement, specs: seq<JobSpec>, now: Time, display: Time, reason: CancelReason)
    ensures DisplayCount(ReplaceEach(r, specs, now, display, reason).acts) == DisplayCount(r.acts)
  {
    hide NewRuntime, Carried, ClearedMetrics, SourceChanged;
    if specs != [] {
      var q, last := ReplaceEach(r, specs[..|specs| - 1], now, display, reason), specs[|specs| - 1];
      ReplaceEachCount(r, specs[..|specs| - 1], now, display, reason);
      if last.id in q.previous {
        CountAppend(q.acts, [InvalidateJob(last.id, reason, ClearedMetrics(q.previous[last.id].spec, last))]);
      }
    }
  }

  lemma ReplaceJobsUnclocked(x: Step, specs: seq<JobSpec>, reason: CancelReason)
    ensures Unclocked(x, ReplaceJobs(x, specs, reason))
  {
    hide CancelWhere, ReplaceEach, InvalidateAll, Marked, FirstPaintBlockers, CurrentDemand, DisplayCount;
    var x1 := CancelAll(x, reason);
    CancelUnclocked(x, x.s.runs.jobs.Keys, reason);
    var r0 := Replacement(x1.s.runs.jobs, map[], x1.acts);
    ReplaceEachCount(r0, specs, x1.s.now, DisplayAnchor(x1.s), reason);
    var r := ReplaceEach(r0, specs, x1.s.now, DisplayAnchor(x1.s), reason);
    var gone := InvalidateAll(InOrder(r.previous.Keys), reason);
    CountNone(gone);
    CountAppend(r.acts, gone);
  }

  lemma InventoryUnclocked(x: Step, update: InventoryUpdate)
    ensures Unclocked(x, ChangeInventory(x, update))
  {
    hide Unclocked, ReplaceJobs, ActivateJobs, RefreshDemand, AllRetried, CurrentDemand, Acknowledges;
    var resumes := Acknowledges(x.s, update);
    var before := CurrentDemand(x.s);
    var x1 := Step(x.s.(settings := x.s.settings.(inventoryGeneration := update.generation, demand := update.demand)), x.acts);
    var x2 := ReplaceJobs(x1, update.jobs, SourceReplaced);
    var x3 := Step(if resumes then x2.s.(handshake := x2.s.handshake.(awaiting := None)) else x2.s, x2.acts);
    var x4 := Step(ActivateJobs(x3.s, before, CurrentDemand(x3.s), x3.s.view.effectivePresented), x2.acts);
    var x5 := RefreshDemand(x4, false);
    var x6 := if resumes then Step(RefreshAllDemanded(x5.s), x5.acts) else x5;
    FrameUnclocked(x, x1);
    ReplaceJobsUnclocked(x1, update.jobs, SourceReplaced);
    FrameUnclocked(x2, x3);
    ActivateUnclocked(x3, before, CurrentDemand(x3.s), x3.s.view.effectivePresented);
    RefreshDemandUnclocked(x4, false);
    FrameUnclocked(x5, x6);
    UnclockedChain(x, x1, x2);
    UnclockedChain(x, x2, x3);
    UnclockedChain(x, x3, x4);
    UnclockedChain(x, x4, x5);
    UnclockedChain(x, x5, x6);
  }

  lemma FrameUnclocked(x: Step, y: Step)
    requires y.s.paint == x.s.paint && y.s.settings.displayInterval == x.s.settings.displayInterval
    requires y.s.lifecycle == x.s.lifecycle && y.s.now == x.s.now && y.acts == x.acts
    ensures Unclocked(x, y)
  {
  }

  lemma DemandUnclocked(x: Step, demand: DemandPlan)
    requires x.s.paint.firstPaintIssued
    ensures Unclocked(x, ChangeDemand(x, demand))
  {
    hide CancelDemandEnded, ActivateJobs, RefreshDemand, CurrentDemand, DisplayCount, FirstPaintBlockers, IssueFirstPaint;
    var before := CurrentDemand(x.s);
    var x1 := Step(x.s.(settings := x.s.settings.(demand := demand)), x.acts);
    var after := CurrentDemand(x1.s);
    var x2 := CancelDemandEnded(x1, before, after);
    CancelEndedUnclocked(x1, before, after);
    ActivateUnclocked(x2, before, after, x2.s.view.effectivePresented);
    var x3 := Step(ActivateJobs(x2.s, before, after, x2.s.view.effectivePresented), x2.acts);
    RefreshDemandUnclocked(x3, false);
  }

  lemma PageUnclocked(x: Step, page: PageId)
    ensures Unclocked(x, ChangePage(x, page))
  {
    hide CancelDemandEnded, ActivateJobs, IssuePublish, CurrentDemand, DisplayCount;
    var before := CurrentDemand(x.s);
    var x1 := Step(x.s.(view := x.s.view.(selectedPage := page)), x.acts);
    var after := CurrentDemand(x1.s);
    var x2 := CancelDemandEnded(x1, before, after);
    CancelEndedUnclocked(x1, before, after);
    ActivateUnclocked(x2, before, after, true);
    var x3 := Step(ActivateJobs(x2.s, before, after, true), x2.acts);
    PublishUnclocked(x3, PageChanged, None, 0, false, true);
  }

  lemma PresentationUnclocked(x: Step, presented: bool)
    ensures Unclocked(x, ChangePresentation(x, presented))
  {
    hide ActivateJobs, RefreshActivation, CurrentDemand, DisplayCount;
    var s1 := x.s.(view := x.s.view.(presented := true, deactivationDeadline := None, effectivePresented := true));
    ActivateUnclocked(Step(s1, x.acts), s1.settings.demand.Demanded(false, s1.view.selectedPage), CurrentDemand(s1), true);
    RefreshActivationUnclocked(Step(ShowTooltip(x.s), x.acts));
  }

  /** Events that leave a running display clock running: no new configuration, no suspend, no stop. A start
      is rejected by a started scheduler, a resume does nothing to a running one. */
  predicate Rides(e: SchedulerEvent) {
    !(e.ConfigChanged? || e.Suspend? || e.Shutdown? || e.CriticalFailure? || e.Startup?)
  }

  /** Events whose arm begins by processing the time. */
  predicate Ticks(e: SchedulerEvent) {
    e.TimeAdvanced? || e.JobFinished? || e.JobCancelled? || e.RefreshTriggered?
  }

  lemma QuietArmUnclocked(s: State, e: SchedulerEvent)
    requires Rides(e) && !Ticks(e) && s.lifecycle == Running && s.paint.firstPaintIssued
    ensures Unclocked(Step(s, []), Apply(s, e).0) && Apply(s, e).1 == Accepted
  {
    hide Unclocked, ChangeInventory, ChangeDemand, ChangePresentation, RefreshActivation, ChangePage, IssuePublish, Acknowledge;
    var x := Step(s, []);
    FrameUnclocked(x, x);
    match e
    case InventoryChanged(_, update) => InventoryUnclocked(x, update);
    case DemandChanged(_, demand) => DemandUnclocked(x, demand);
    case TooltipPresented(_, presented) => PresentationUnclocked(x, presented);
    case TooltipReactivated(_) => RefreshActivationUnclocked(x);
    case SelectedPageChanged(_, page) => PageUnclocked(x, page);
    case DisplayRefreshRequested(_) => PublishUnclocked(x, ConfigReload, None, 0, true, s.view.effectivePresented);
    case TooltipRefreshRequested(_) => PublishUnclocked(x, TooltipRefresh, None, 0, false, true);
    case PanelPublished(_, publication) => AcknowledgeUnclocked(s, publication);
    case Resume(_) => assert ResumeNow(x) == x;
  }

  lemma AcknowledgeUnclocked(s: State, publication: PublicationId)
    ensures Unclocked(Step(s, []), Step(Acknowledge(s, publication), []))
  {
    FrameUnclocked(Step(s, []), Step(Acknowledge(s, publication), []));
  }

  // ----- steps behind the processed time

  lemma FinishUnclocked(x: Step, t: JobTicket, completion: CompletionKind, ready: bool)
    requires Finishes(x.s, t) && x.s.paint.firstPaintIssued
    ensures Unclocked(x, FinishJob(x, t, completion, ready))
  {
    hide CompletedJobs, CompletionActions, IssuePublish, IssueFirstPaint, DisplayCount;
    var acts := CompletionActions(x.s, t, completion, ready);
    CountNone(acts);
    CountAppend(x.acts, acts);
    var y := Step(LandRun(x.s, t, completion), x.acts + acts);
    PublishUnclocked(Step(y.s.(view := y.s.view.(activationDeadline := None)), y.acts), TooltipRefresh, None, 0, false, true);
  }

  lemma TickArmUnclocked(s: State, e: SchedulerEvent)
    requires Ticks(e) && TimeFirst(s).s.paint.firstPaintIssued
    ensures Unclocked(TimeFirst(s), Apply(s, e).0)
  {
    hide TimeFirst, FinishJob, Unclocked, Cancelling, Finishes, CancelRuns;
    var x := TimeFirst(s);
    FrameUnclocked(x, x);
    match e
    case TimeAdvanced(_) =>
    case JobFinished(_, t, completion, ready) =>
      FrameUnclocked(x, Step(FinishCancellation(x.s, t), x.acts));
      if Finishes(x.s, t) { FinishUnclocked(x, t, completion, ready); }
    case JobCancelled(_, t) => FrameUnclocked(x, Step(FinishCancellation(x.s, t), x.acts));
    case RefreshTriggered(_, job) => FrameUnclocked(x, Step(Trigger(x.s, job), x.acts));
  }

  lemma ProcessTicks(s: State)
    requires PaintOk(s.paint) && s.paint.firstPaintIssued && s.settings.displayInterval > 0 && s.lifecycle == Running
    ensures var x := TimeFirst(s);
      && x.s.paint.firstPaintIssued && x.s.paint.nextDisplay.Some? && x.s.now == s.now && x.s.lifecycle == Running
      && x.s.settings.displayInterval == s.settings.displayInterval
      && x.s.paint.nextDisplay.value > s.now
      && x.s.paint.nextDisplay.value == s.paint.nextDisplay.value + DisplayCount(x.acts) * s.settings.displayInterval
      && DisplayCount(x.acts) == DueIntervals(s.paint.nextDisplay.value, s.settings.displayInterval, s.now)
  {
    hide ExpireTimers, TimedJobs, DueIntervals, CurrentDemand, SameClocks;
    TimersTick(Step(s, []));
    ClockFrame(s, ExpireTimers(Step(s, [])).s);
  }

  // ----- one event

  /** An accepted event, or the one result rejected late, moves the display deadline by exactly the deadlines it
      accounts for; those are the ones due when the event processes the time, and none otherwise. */
  lemma EventRides(s: State, e: SchedulerEvent)
    requires Ticking(s) && Rides(e)
    ensures var out := Handle(s, e);
      && Ticking(out.s) && out.s.settings.displayInterval == s.settings.displayInterval && s.now <= out.s.now
      && out.s.paint.nextDisplay.value
           == s.paint.nextDisplay.value + DisplayCount(out.acts) * s.settings.displayInterval
      && (TicksIn(s, e) ==>
            && out.s.now == e.at && out.s.paint.nextDisplay.value > e.at
            && DisplayCount(out.acts) == DueIntervals(s.paint.nextDisplay.value, s.settings.displayInterval, e.at))
      && (!TicksIn(s, e) ==> DisplayCount(out.acts) == 0)
  {
    hide Handle, Apply, Settle, Inv, EarlyRejection, DisplayCount, DueIntervals, TimeFirst;
    NothingCounted();
    if EarlyRejection(s, e).Some? {
      RejectedIsSilent(s, e);
    } else {
      var s' := s.(now := e.at);
      var (x, d) := Apply(s', e);
      assert PaintOk(s.paint) by { InvPaint(s); }
      if Ticks(e) {
        ProcessTicks(s');
        TickArmUnclocked(s', e);
      } else {
        QuietArmUnclocked(s', e);
      }
      SettleUnclocked(x, d);
      HandleCounts(s, e);
      HandleKeepsInvariant(s, e);
    }
  }

  /** The event passes the guards and processes the time. */
  predicate TicksIn(s: State, e: SchedulerEvent) {
    Ticks(e) && EarlyRejection(s, e).None?
  }

  lemma NothingCounted()
    ensures DisplayCount([]) == 0
  {
  }

  lemma RejectedIsSilent(s: State, e: SchedulerEvent)
    requires EarlyRejection(s, e).Some?
    ensures Handle(s, e).s == s && DisplayCount(Handle(s, e).acts) == 0
  {
  }

  lemma SettleUnclocked(x: Step, d: EventDisposition)
    ensures Unclocked(x, Settle(x, d))
  {
    hide Settle, DisplayCount;
    if d == Accepted {
      SettleClocks(x);
    } else {
      UnsettledStays(x, d);
    }
  }

  lemma UnsettledStays(x: Step, d: EventDisposition)
    requires d != Accepted
    ensures Settle(x, d) == x
  {
  }

  lemma HandleCounts(s: State, e: SchedulerEvent)
    requires EarlyRejection(s, e).None?
    ensures var (x, d) := Apply(s.(now := e.at), e);
      Handle(s, e).s == Settle(x, d).s && DisplayCount(Handle(s, e).acts) == DisplayCount(Settle(x, d).acts)
    ensures s.lifecycle != Unstarted ==> s.now <= e.at
  {
    hide Apply, Settle, DisplayCount, SortActions;
    var (x, d) := Apply(s.(now := e.at), e);
    CountSorted(Settle(x, d).acts);
  }

  // ----- runs

  /** The last time of the run up to which deadlines have been accounted for. */
  function LastTick(s: State, events: seq<SchedulerEvent>): Option<Time> {
    if events == [] then None
    else
      var front, e := events[..|events| - 1], events[|events| - 1];
      if TicksIn(Run(s, front), e) then Some(e.at) else LastTick(s, front)
  }

  lemma {:induction false} RideRun(s: State, events: seq<SchedulerEvent>)
    requires Ticking(s) && forall n :: 0 <= n < |events| ==> Rides(events[n])
    ensures var end, total, interval := Run(s, events), DisplayTotal(s, events), s.settings.displayInterval;
      && Ticking(end) && end.settings.displayInterval == interval && s.now <= end.now
      && end.paint.nextDisplay.value == s.paint.nextDisplay.value + total * interval
      && (LastTick(s, events).None? ==> total == 0)
      && (LastTick(s, events).Some? ==>
            && LastTick(s, events).value <= end.now && end.paint.nextDisplay.value > LastTick(s, events).value
            && (total > 0 ==> end.paint.nextDisplay.value - interval <= LastTick(s, events).value))
  {
    hide Handle, Ticking, DisplayCount, TicksIn, Rides, Run, DisplayTotal, LastTick, DueIntervals;
    NoRide(s);
    if events != [] {
      var front, e := events[..|events| - 1], events[|events| - 1];
      RideRun(s, front);
      RideOneMore(s, events);
      var mid := Run(s, front);
      EventRides(mid, e);
      TickingFacts(mid);
      TickingFacts(Handle(mid, e).s);
      var before, here, interval := DisplayTotal(s, front), DisplayCount(Handle(mid, e).acts), s.settings.displayInterval;
      assert (before + here) * interval == before * interval + here * interval;
      if TicksIn(mid, e) && here > 0 { TickNotAhead(mid.paint.nextDisplay.value, interval, e.at, here); }
    }
  }

  lemma NoRide(s: State)
    ensures Run(s, []) == s && DisplayTotal(s, []) == 0 && LastTick(s, []) == None
    ensures Ticking(s) ==> s.paint.nextDisplay.Some?
  {
    hide Inv;
  }

  lemma RideOneMore(s: State, events: seq<SchedulerEvent>)
    requires events != []
    ensures var front, e := events[..|events| - 1], events[|events| - 1]; var mid := Run(s, front);
      && Run(s, events) == Handle(mid, e).s
      && DisplayTotal(s, events) == DisplayTotal(s, front) + DisplayCount(Handle(mid, e).acts)
      && LastTick(s, events) == if TicksIn(mid, e) then Some(e.at) else LastTick(s, front)
  {
    hide Handle, DisplayCount, TicksIn;
  }

  lemma TickingFacts(s: State)
    requires Ticking(s)
    ensures s.paint.nextDisplay.Some? && s.settings.displayInterval > 0
  {
    hide Inv;
  }

  lemma TickNotAhead(deadline: Time, interval: Duration, now: Time, count: nat)
    requires interval > 0 && count == DueIntervals(deadline, interval, now) && count > 0
    ensures deadline + count * interval - interval <= now
  {
    SkippedCountsGridPoints(deadline, interval, now);
    LatestDueIsLastGridPoint(deadline, interval, now);
  }

  /** Over every run of events that leave the display clock running, the deadlines published plus the deadlines
      reported as skipped are exactly the grid points passed up to the last event that processed the time. */
  lemma DisplayDeadlinesAddUp(s: State, events: seq<SchedulerEvent>)
    requires Ticking(s) && forall n :: 0 <= n < |events| ==> Rides(events[n])
    ensures var anchor, interval, last := s.paint.nextDisplay.value, s.settings.displayInterval, LastTick(s, events);
      DisplayTotal(s, events) == if last.Some? then DueIntervals(anchor, interval, last.value) else 0
  {
    hide Handle, Inv, Run, DisplayTotal, LastTick;
    RideRun(s, events);
    if LastTick(s, events).Some? {
      GridCount(s.paint.nextDisplay.value, s.settings.displayInterval, LastTick(s, events).value, DisplayTotal(s, events));
    }
  }
}
