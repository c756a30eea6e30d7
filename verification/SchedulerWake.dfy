/** The wake-up that an event which processes the time asks for: later than now, exactly unless the first paint
    has left a deadline behind (src/scheduler/machine.rs). */
module SchedulerWake {
  import opened Arithmetic
  import opened Wrappers
  import opened SchedulerPolicy
  import opened SchedulerModel
  import opened SchedulerSpec
  import opened SchedulerSafety
  import opened SchedulerSteps
  import opened SchedulerInvariant
  import opened SchedulerDispatch
  import opened SchedulerRuns
  import opened SchedulerRejections
  import opened SchedulerSources
  import opened SchedulerTiming
  import opened SchedulerClock
  import opened SchedulerPending

  // ----- the earliest deadline

  lemma {:induction false} EarliestIsLeast(ids: seq<JobId>, jobs: JobTable, now: Time)
    requires forall id :: id in ids ==> id in jobs
    ensures Future(EarliestJob(ids, jobs), now) <==> forall id :: id in ids ==> JobAhead(jobs[id], now)
  {
    if ids != [] {
      var front, last := ids[..|ids| - 1], ids[|ids| - 1];
      EarliestIsLeast(front, jobs, now);
      assert forall id :: id in ids <==> id in front || id == last;
    }
  }

  lemma EarliestDemanded(s: State, now: Time)
    ensures Future(EarliestJob(InOrder(s.runs.jobs.Keys * CurrentDemand(s)), s.runs.jobs), now) <==> JobsAhead(s, now)
  {
    hide CurrentDemand, EarliestJob, JobAhead;
    EarliestIsLeast(InOrder(s.runs.jobs.Keys * CurrentDemand(s)), s.runs.jobs, now);
  }

  /** The scheduler asks to be woken later than `now` exactly when every timer it waits for is later. */
  lemma WakeIsAhead(s: State, now: Time)
    requires s.lifecycle == Running && s.handshake.awaiting.None?
    ensures Future(NextWake(s), now) <==> TimersAhead(s, now) && Future(s.paint.nextDisplay, now)
  {
    hide CurrentDemand, EarliestJob, JobsAhead;
    EarliestDemanded(s, now);
  }

  /** The parts of a state that the wake-up is read from agree. */
  ghost predicate SameTimers(a: State, b: State) {
    && a.settings == b.settings && a.view.effectivePresented == b.view.effectivePresented
    && a.view.selectedPage == b.view.selectedPage
    && a.view.deactivationDeadline == b.view.deactivationDeadline && a.view.activationDeadline == b.view.activationDeadline
    && a.paint.nextDisplay == b.paint.nextDisplay && a.paint.firstPaintDeadline == b.paint.firstPaintDeadline
    && a.runs.jobs.Keys == b.runs.jobs.Keys
    && forall id :: id in a.runs.jobs ==>
         a.runs.jobs[id].retryDue == b.runs.jobs[id].retryDue && a.runs.jobs[id].nominalDue == b.runs.jobs[id].nominalDue
  }

  lemma SameTimersAhead(a: State, b: State, now: Time)
    requires SameTimers(a, b)
    ensures TimersAhead(a, now) <==> TimersAhead(b, now)
  {
  }

  lemma DispatchKeepsTimers(x: Step, now: Time)
    requires Occupancy(x.s.runs) && (forall a :: a in x.acts ==> !a.StartJob?)
    ensures var y := Dispatch(x);
      && (TimersAhead(y.s, now) <==> TimersAhead(x.s, now))
      && y.s.paint == x.s.paint && y.s.lifecycle == x.s.lifecycle && y.s.handshake == x.s.handshake
  {
    hide Occupancy, Dispatch, TimersAhead;
    DispatchStartsTheBest(x);
    SameTimersAhead(x.s, Dispatch(x).s, now);
  }

  // ----- what is scheduled

  ghost predicate SchedulesNothing(acts: seq<SchedulerAction>) {
    forall a :: a in acts ==> !a.ScheduleDeadline?
  }

  lemma PublishSchedulesNothing(o: Outbound, why: PublishReason, deadline: Option<Time>, skipped: nat, panel: bool, tooltip: bool)
    requires SchedulesNothing(o.acts)
    ensures SchedulesNothing(Publish(o, why, deadline, skipped, panel, tooltip).acts)
  {
    hide HasTooltipPublication;
    var i := FirstRefresh(o.acts);
  }

  lemma IssueSchedulesNothing(x: Step, why: PublishReason, deadline: Option<Time>, skipped: nat, panel: bool, tooltip: bool)
    requires SchedulesNothing(x.acts)
    ensures SchedulesNothing(IssuePublish(x, why, deadline, skipped, panel, tooltip).acts)
  {
    hide Publish;
    PublishSchedulesNothing(Outbound(x.s.feed, x.acts), why, deadline, skipped, panel, tooltip && x.s.view.presented);
  }

  lemma DeactivationSchedulesNothing(x: Step)
    requires SchedulesNothing(x.acts)
    ensures SchedulesNothing(ExpireDeactivation(x).acts)
  {
    hide Moved, AddTickets, CurrentDemand, PageWork;
  }

  lemma ProcessSchedulesNothing(s: State)
    ensures SchedulesNothing(ProcessTime(Step(s, [])).acts)
  {
    hide IssuePublish, Painted, FirstPaintSkips, SkippedIntervals, ExpireDeactivation, TimedJobs, AdvanceDisplay, CurrentDemand, SchedulesNothing;
    var x := Step(s, []);
    assert SchedulesNothing(x.acts) by { EmptySchedulesNothing(); }
    var a := ExpireDeactivation(x);
    DeactivationSchedulesNothing(x);
    IssueSchedulesNothing(Step(Painted(a.s), a.acts), FirstPaintTimeout, None, FirstPaintSkips(a.s), true, a.s.view.effectivePresented);
    var b := ExpireFirstPaint(a);
    IssueSchedulesNothing(Step(b.s.(view := b.s.view.(activationDeadline := None, activationWaiting := {})), b.acts),
                          TooltipRefresh, None, 0, false, true);
    var c := ExpireActivation(b);
    if Due(c.s.paint.nextDisplay, c.s.now) {
      var deadline := c.s.paint.nextDisplay.value;
      IssueSchedulesNothing(c, DisplayDeadline, Some(deadline), SkippedIntervals(deadline, c.s.settings.displayInterval, c.s.now),
                            true, c.s.view.effectivePresented);
    }
  }

  lemma EmptySchedulesNothing()
    ensures SchedulesNothing([])
  {
  }

  lemma {:induction false} StartEachSchedulesNothing(x: Step, cs: seq<Candidate>)
    requires Listed(x.s.runs.jobs, cs) && SchedulesNothing(x.acts)
    ensures SchedulesNothing(StartEach(x, cs).acts)
  {
    hide Launch, TicketFor;
    if cs != [] {
      StartEachSchedulesNothing(x, cs[..|cs| - 1]);
    }
  }

  lemma ScheduledIsWake(x: Step, at: Time)
    requires x.s.lifecycle == Running && SchedulesNothing(x.acts)
    ensures (forall w: Time :: ScheduleDeadline(w) in SortActions(Settle(x, Accepted).acts) ==> w > at)
       <==> Future(NextWake(Dispatch(x).s), at)
  {
    hide NextWake, StartEach, CandidatesInOrder, Candidates, CurrentDemand;
    CandidatesListed(x.s);
    StartEachSchedulesNothing(x, CandidatesInOrder(Candidates(x.s)));
    var y := Dispatch(x);
    assert SchedulesNothing(y.acts);
    var acts := Settle(x, Accepted).acts;
    if NextWake(y.s).Some? {
      var w := NextWake(y.s).value;
      assert acts[|acts| - 1] == ScheduleDeadline(w);
      assert ScheduleDeadline(w) in SortActions(acts);
    }
  }

  // ----- the event's own arm

  /** Landing a run changes no deadline of a job but its own retry, which is later than now. */
  lemma LandKeepsTimers(s: State, t: JobTicket, completion: CompletionKind)
    requires Flying(s.runs, t)
    ensures var y := LandRun(s, t, completion);
      && y == s.(runs := y.runs, paint := y.paint, view := y.view)
      && y.paint == s.paint.(firstPaintWaiting := s.paint.firstPaintWaiting - {t.job})
      && y.view == s.view.(activationWaiting := s.view.activationWaiting - {t.job})
      && y.runs.jobs.Keys == s.runs.jobs.Keys
      && forall id :: id in s.runs.jobs ==>
           && y.runs.jobs[id].spec == s.runs.jobs[id].spec && y.runs.jobs[id].nominalDue == s.runs.jobs[id].nominalDue
           && (Future(s.runs.jobs[id].retryDue, s.now) ==> Future(y.runs.jobs[id].retryDue, s.now))
  {
    hide RetryDelay;
    CompletedTimers(s.runs.jobs[t.job], completion, s.now);
  }

  lemma CompletedTimers(rt: JobRuntime, completion: CompletionKind, now: Time)
    ensures var r := Completed(rt, completion, now);
      && r.spec == rt.spec && r.nominalDue == rt.nominalDue && (Future(rt.retryDue, now) ==> Future(r.retryDue, now))
  {
    hide Pow2;
  }

  lemma LandKeepsAhead(s: State, t: JobTicket, completion: CompletionKind)
    requires Flying(s.runs, t) && TimersAhead(s, s.now)
    ensures var y := LandRun(s, t, completion); TimersAhead(y, s.now)
  {
    hide LandRun, CurrentDemand;
    LandKeepsTimers(s, t, completion);
    DemandIgnoresWaiting(s, LandRun(s, t, completion));
  }

  lemma DemandIgnoresWaiting(a: State, b: State)
    requires a.settings == b.settings && a.view.effectivePresented == b.view.effectivePresented
    requires a.view.selectedPage == b.view.selectedPage
    ensures CurrentDemand(a) == CurrentDemand(b)
  {
  }

  /** A fast job is wanted, and its place just before the next display deadline has already passed. */
  predicate FastJobBehind(s: State, demanded: set<JobId>, now: Time) {
    && s.paint.nextDisplay.Some?
    && AdvancePast(s.paint.nextDisplay.value, s.settings.displayInterval, now) <= now + FAST_PREFETCH
    && exists id :: id in s.runs.jobs && id in demanded && s.runs.jobs[id].spec.timing == FastDisplay
  }

  /** The first paint moves a deadline that has passed to the next one, and the fast jobs to just before it. */
  lemma PaintAhead(x: Step, why: PublishReason)
    requires TimersAhead(x.s, x.s.now) && PaintOk(x.s.paint) && !x.s.paint.firstPaintIssued && x.s.settings.displayInterval > 0
    ensures var y := IssueFirstPaint(x, why).s;
      && y.now == x.s.now && y.settings == x.s.settings && y.view == x.s.view
      && y.lifecycle == x.s.lifecycle && y.handshake == x.s.handshake
      && Future(y.paint.nextDisplay, x.s.now)
      && (TimersAhead(y, x.s.now) <==>
            !(Due(x.s.paint.nextDisplay, x.s.now) && FastJobBehind(x.s, CurrentDemand(x.s), x.s.now)))
  {
    hide Publish, FirstPaintSkips, AdvancePast, OnGrid, CurrentDemand;
    var now, y := x.s.now, IssueFirstPaint(x, why).s;
    DemandFrame(x.s, y);
    if Due(x.s.paint.nextDisplay, now) {
      AdvancePastIsNextGridPoint(x.s.paint.nextDisplay.value, x.s.settings.displayInterval, now);
      var next := AdvancePast(x.s.paint.nextDisplay.value, x.s.settings.displayInterval, now);
      assert y.runs.jobs == Reanchored(x.s.runs.jobs, SaturatingSub(next, FAST_PREFETCH));
      ReanchoredAhead(x.s.runs.jobs, CurrentDemand(x.s), next, now);
    }
  }

  lemma ReanchoredAhead(jobs: JobTable, demanded: set<JobId>, next: Time, now: Time)
    requires forall id :: id in jobs && id in demanded ==> JobAhead(jobs[id], now)
    ensures var after := Reanchored(jobs, SaturatingSub(next, FAST_PREFETCH));
      (forall id :: id in after && id in demanded ==> JobAhead(after[id], now))
      <==> !(next <= now + FAST_PREFETCH && exists id :: id in jobs && id in demanded && jobs[id].spec.timing == FastDisplay)
  {
    var after := Reanchored(jobs, SaturatingSub(next, FAST_PREFETCH));
    if id :| id in jobs && id in demanded && jobs[id].spec.timing == FastDisplay {
      assert JobAhead(after[id], now) <==> next > now + FAST_PREFETCH;
    }
  }

  lemma RefreshAhead(x: Step)
    requires Future(x.s.view.activationDeadline, x.s.now)
    ensures var y := RefreshWhenReady(x).s;
      && y.paint == x.s.paint && y.lifecycle == x.s.lifecycle && y.handshake == x.s.handshake
      && (TimersAhead(y, x.s.now) <==> TimersAhead(x.s, x.s.now))
  {
    hide Publish, CurrentDemand;
    DemandIgnoresWaiting(x.s, RefreshWhenReady(x).s);
  }

  /** The result is the last one the first paint waited for. */
  predicate LetsPaint(s: State, job: JobId) {
    !s.paint.firstPaintIssued && s.paint.firstPaintWaiting <= {job}
  }

  /** Landing a result leaves a deadline behind exactly when the display deadline has passed, and is either not
      moved by a first paint or takes a fast job with it to a place that has passed, too. */
  lemma FinishAhead(x: Step, t: JobTicket, completion: CompletionKind, ready: bool)
    requires TimersAhead(x.s, x.s.now) && Finishes(x.s, t) && PaintOk(x.s.paint) && x.s.settings.displayInterval > 0
    ensures var y := FinishJob(x, t, completion, ready).s;
      && y.lifecycle == x.s.lifecycle && y.handshake == x.s.handshake
      && (TimersAhead(y, x.s.now) && Future(y.paint.nextDisplay, x.s.now) <==>
            !(Due(x.s.paint.nextDisplay, x.s.now)
              && (LetsPaint(x.s, t.job) ==> FastJobBehind(x.s, CurrentDemand(x.s), x.s.now))))
  {
    hide LandRun, CompletionActions, IssueFirstPaint, RefreshWhenReady, CurrentDemand, TimersAhead, FastJobBehind;
    LandKeepsTimers(x.s, t, completion);
    LandKeepsAhead(x.s, t, completion);
    var landed := Step(LandRun(x.s, t, completion), x.acts + CompletionActions(x.s, t, completion, ready));
    SameBehind(x.s, landed.s);
    assert LetsPaint(x.s, t.job) <==> LetsPaint(landed.s, t.job) && landed.s.paint.firstPaintWaiting == {};
    if LetsPaint(x.s, t.job) { PaintAhead(landed, FirstPaintReady); }
    var painted := PaintWhenReady(landed);
    assert Future(painted.s.view.activationDeadline, x.s.now) by { SurfaceFacts(x.s, x.s.now); }
    RefreshAhead(painted);
  }

  lemma SurfaceFacts(s: State, now: Time)
    requires TimersAhead(s, now)
    ensures Future(s.view.activationDeadline, now)
  {
  }

  lemma SameBehind(a: State, b: State)
    requires a.settings == b.settings && a.paint.nextDisplay == b.paint.nextDisplay && a.runs.jobs.Keys == b.runs.jobs.Keys
    requires forall id :: id in a.runs.jobs ==> a.runs.jobs[id].spec == b.runs.jobs[id].spec
    requires a.view.effectivePresented == b.view.effectivePresented && a.view.selectedPage == b.view.selectedPage
    ensures CurrentDemand(a) == CurrentDemand(b)
    ensures forall now: Time :: FastJobBehind(a, CurrentDemand(a), now) <==> FastJobBehind(b, CurrentDemand(b), now)
  {
    hide AdvancePast, DemandPlan.Demanded;
  }

  // ----- the state the time has been processed in

  lemma GraceDemand(x: Step)
    ensures var y := ExpireDeactivation(x).s;
      CurrentDemand(y) == DemandAt(x.s, x.s.now) && y.view.selectedPage == x.s.view.selectedPage
  {
    hide CancelRuns, Moved, CancelActions, DemandPlan.Demanded, DemandRefreshed, PageWork;
  }

  lemma ActivationKeepsDemand(x: Step)
    ensures CurrentDemand(ExpireActivation(x).s) == CurrentDemand(x.s)
  {
    hide Publish;
  }

  lemma SpecsTimed(s: State)
    ensures var y := TimeJobs(s);
      y.runs.jobs.Keys == s.runs.jobs.Keys && forall id :: id in s.runs.jobs ==> y.runs.jobs[id].spec == s.runs.jobs[id].spec
  {
    hide AdvancePast, LatestDueAtOrBefore, HistoryReady, CurrentDemand;
  }

  /** What the first paint will find once the time has been processed. */
  lemma ProcessedFrame(x: Step)
    requires PaintOk(x.s.paint) && x.s.settings.displayInterval > 0
    ensures var y := ProcessTime(x).s;
      && y.now == x.s.now && y.settings == x.s.settings && PaintOk(y.paint)
      && CurrentDemand(y) == DemandAt(x.s, x.s.now)
      && y.runs.jobs.Keys == x.s.runs.jobs.Keys
      && (forall id :: id in x.s.runs.jobs ==> y.runs.jobs[id].spec == x.s.runs.jobs[id].spec)
      && (y.paint.firstPaintIssued <==> x.s.paint.firstPaintIssued || Due(x.s.paint.firstPaintDeadline, x.s.now))
      && (!y.paint.firstPaintIssued ==> y.paint == x.s.paint)
  {
    hide ExpireDeactivation, ExpireFirstPaint, ExpireActivation, DisplayTick, TimeJobs, CurrentDemand, DemandAt, PaintOk, Due;
    var a := ExpireDeactivation(x);
    var b := ExpireFirstPaint(a);
    var c := ExpireActivation(b);
    var d := DisplayTick(c);
    DeactivationClocks(x);
    GraceDemand(x);
    FirstPaintClocks(a);
    DemandFrame(a.s, b.s);
    ActivationClocks(b);
    ActivationKeepsDemand(b);
    DisplayTickFrame(c);
    DisplayTickPaint(c);
    DemandFrame(c.s, d.s);
    SpecsTimed(d.s);
    TimedFrame(d.s);
    DemandFrame(d.s, TimeJobs(d.s));
  }

  lemma TimedFrame(s: State)
    ensures TimeJobs(s) == s.(runs := TimeJobs(s).runs)
  {
    hide TimedJobs, CurrentDemand;
  }

  lemma DisplayTickPaint(x: Step)
    requires PaintOk(x.s.paint)
    ensures PaintOk(DisplayTick(x).s.paint)
    ensures DisplayTick(x).s.paint.firstPaintIssued == x.s.paint.firstPaintIssued
  {
    hide Publish, SkippedIntervals, AdvancePast;
  }

  // ----- one event

  /** Scheduling is on, with nothing that would stop the clock. */
  ghost predicate Waking(s: State) {
    Inv(s) && s.lifecycle == Running && s.handshake.awaiting.None?
    && s.settings.displayInterval > 0 && PositiveCadences(s.runs.jobs)
  }

  /** The event brings the last result that the first paint waited for. */
  predicate BringsPaint(s: State, e: SchedulerEvent) {
    e.JobFinished? && !Cancelling(s.runs, e.ticket) && LetsPaint(s, e.ticket.job)
  }

  /** The display deadline has passed before the first paint, which this event either leaves to be awaited, or
      lets out with a wanted fast job put where the time has passed as well. */
  predicate LeavesBehind(s: State, e: SchedulerEvent) {
    WaitsInThePast(s, e.at) && (BringsPaint(s, e) ==> FastJobBehind(s, DemandAt(s, e.at), e.at))
  }

  /** The state of `LeavesBehind` once the time has been processed. */
  lemma BehindAfterTime(s: State, e: SchedulerEvent)
    requires PaintOk(s.paint) && s.lifecycle == Running && s.settings.displayInterval > 0 && PositiveCadences(s.runs.jobs)
    ensures var x := TimeFirst(s.(now := e.at)).s;
      LeavesBehind(s, e) <==>
        Due(x.paint.nextDisplay, e.at)
        && (e.JobFinished? && !Cancelling(s.runs, e.ticket) && LetsPaint(x, e.ticket.job) ==>
              FastJobBehind(x, CurrentDemand(x), e.at))
  {
    hide ProcessTime, CurrentDemand, DemandAt, AdvancePast, TimersAhead, Cancelling;
    var s' := s.(now := e.at);
    ProcessedIsAhead(Step(s', []));
    ProcessedFrame(Step(s', []));
    assert DemandAt(s', e.at) == DemandAt(s, e.at) by { DemandAtIgnoresNow(s, e.at); }
  }

  lemma DemandAtIgnoresNow(s: State, at: Time)
    ensures DemandAt(s.(now := at), at) == DemandAt(s, at)
  {
  }

  /** Where an accepted event that processes the time leaves the timers. */
  lemma ArmAhead(s: State, e: SchedulerEvent)
    requires PaintOk(s.paint) && s.lifecycle == Running && s.settings.displayInterval > 0 && PositiveCadences(s.runs.jobs)
    requires Ticks(e) && Apply(s.(now := e.at), e).1 == Accepted
    ensures var y := Apply(s.(now := e.at), e).0.s;
      && y.lifecycle == Running && y.handshake == s.handshake
      && (TimersAhead(y, e.at) && Future(y.paint.nextDisplay, e.at) <==> !LeavesBehind(s, e))
  {
    hide ProcessTime, FinishJob, TimersAhead, LeavesBehind, FastJobBehind, CurrentDemand, Trigger, FinishCancellation, LetsPaint;
    var s' := s.(now := e.at);
    var x := TimeFirst(s');
    ProcessedIsAhead(Step(s', []));
    ProcessedFrame(Step(s', []));
    BehindAfterTime(s, e);
    if e.JobFinished? && !Cancelling(s.runs, e.ticket) {
      FinishAhead(x, e.ticket, e.completion, e.notificationReady);
    } else {
      QuietArmTimers(s', e);
      SameTimersAhead(x.s, Apply(s', e).0.s, e.at);
    }
  }

  lemma QuietArmTimers(s: State, e: SchedulerEvent)
    requires Ticks(e) && (e.JobFinished? ==> Cancelling(s.runs, e.ticket))
    ensures var x, y := TimeFirst(s).s, Apply(s, e).0.s;
      SameTimers(x, y) && y.lifecycle == x.lifecycle && y.handshake == x.handshake
  {
    hide TimeFirst, Trigger, FinishCancellation, FinishJob, Finishes, Cancelling, SameTimers;
    var x := TimeFirst(s).s;
    SameTimersSelf(x);
    if e.RefreshTriggered? {
      TriggerTimers(x, e.job);
    } else if !e.TimeAdvanced? {
      ReleaseTimers(x, e.ticket);
    }
  }

  lemma SameTimersSelf(s: State)
    ensures SameTimers(s, s)
  {
  }

  lemma TriggerTimers(s: State, job: JobId)
    ensures var y := Trigger(s, job); SameTimers(s, y) && y.lifecycle == s.lifecycle && y.handshake == s.handshake
  {
    hide Sampling, CurrentDemand;
  }

  lemma ReleaseTimers(s: State, t: JobTicket)
    ensures var y := FinishCancellation(s, t); SameTimers(s, y) && y.lifecycle == s.lifecycle && y.handshake == s.handshake
  {
  }

  lemma ArmSchedulesNothing(s: State, e: SchedulerEvent)
    requires Ticks(e) && s.lifecycle == Running
    ensures SchedulesNothing(Apply(s, e).0.acts)
  {
    hide ProcessTime, FinishJob, SchedulesNothing, Trigger, FinishCancellation, Finishes, Cancelling;
    var x := TimeFirst(s);
    ProcessSchedulesNothing(s);
    if e.JobFinished? && Finishes(x.s, e.ticket) {
      FinishSchedulesNothing(x, e.ticket, e.completion, e.notificationReady);
    }
  }

  lemma FinishSchedulesNothing(x: Step, t: JobTicket, completion: CompletionKind, ready: bool)
    requires Finishes(x.s, t) && SchedulesNothing(x.acts)
    ensures SchedulesNothing(FinishJob(x, t, completion, ready).acts)
  {
    hide LandRun, CompletionActions, IssuePublish, Painted, FirstPaintSkips;
    var y := Step(LandRun(x.s, t, completion), x.acts + CompletionActions(x.s, t, completion, ready));
    IssueSchedulesNothing(Step(Painted(y.s), y.acts), FirstPaintReady, None, FirstPaintSkips(y.s), true, y.s.view.effectivePresented);
    var z := PaintWhenReady(y);
    IssueSchedulesNothing(Step(z.s.(view := z.s.view.(activationDeadline := None)), z.acts), TooltipRefresh, None, 0, false, true);
  }

  /** The wake-up asked for is later than `at`, if one is asked for. */
  ghost predicate WakesAfter(acts: seq<SchedulerAction>, at: Time) {
    forall w: Time :: ScheduleDeadline(w) in acts ==> w > at
  }

  lemma RejectedAsksNothing(x: Step, d: EventDisposition, at: Time)
    requires SchedulesNothing(x.acts) && d != Accepted
    ensures WakesAfter(SortActions(Settle(x, d).acts), at)
  {
  }

  lemma AcceptedArm(s: State, e: SchedulerEvent)
    requires Waking(s) && EarlyRejection(s, e).None?
    ensures var s' := s.(now := e.at);
      && Occupancy(Apply(s', e).0.s.runs) && (forall a :: a in Apply(s', e).0.acts ==> !a.StartJob?)
      && PaintOk(s.paint)
  {
    hide Apply, Occupancy, EarlyRejection;
    InvIsReady(s, e);
    ApplyIsArmOk(s.(now := e.at), e);
    InvPaint(s);
  }

  /** Whatever event processes the time, the wake-up it asks for is strictly later, exactly unless it is
      accepted and leaves a deadline behind. */
  lemma WakeIsStrictlyLater(s: State, e: SchedulerEvent)
    requires Waking(s) && Ticks(e) && EarlyRejection(s, e).None?
    ensures WakesAfter(Handle(s, e).acts, e.at) <==> !(Handle(s, e).disposition == Accepted && LeavesBehind(s, e))
  {
    hide Inv, Apply, Dispatch, NextWake, SortActions, Settle, LeavesBehind, Occupancy, TimersAhead, EarlyRejection, SchedulesNothing;
    var s' := s.(now := e.at);
    var (x, d) := Apply(s', e);
    AcceptedArm(s, e);
    ArmSchedulesNothing(s', e);
    if d == Accepted {
      ArmAhead(s, e);
      DispatchKeepsTimers(x, e.at);
      WakeIsAhead(Dispatch(x).s, e.at);
      ScheduledIsWake(x, e.at);
    } else {
      RejectedAsksNothing(x, d, e.at);
    }
  }

  // ----- a first paint that leaves a fast job behind

  const FAST_JOB := JobId(0, 0, 0)
  const FAST_SPEC := JobSpec(None, FAST_JOB, FastDisplay, 1_000_000_000, None, true, false, false)
  const FAST_CONFIG := SchedulerConfig(1, 100_000_000, [FAST_SPEC], DemandPlan({FAST_JOB}, {}, map[]))
  const FAST_TICKET := JobTicket({}, 1, FAST_JOB, 1, 1, None)

  /** Started at time zero; the first paint waits for the fast job. */
  ghost predicate AwaitsFast(s: State) {
    && s.lifecycle == Running && s.now == 0 && s.handshake.awaiting.None?
    && s.settings == Settings(1, 1, 100_000_000, FAST_CONFIG.demand)
    && s.view == INITIAL.view
    && s.paint == Paint(Some(100_000_000), Some(FIRST_PAINT_TIMEOUT), {FAST_JOB}, false)
    && s.runs.jobs.Keys == {FAST_JOB} && s.runs.jobs[FAST_JOB].spec == FAST_SPEC && s.runs.cancelling == map[]
  }

  ghost predicate FastWanted(s: State) {
    s.runs == Runs(map[FAST_JOB := NewRuntime(FAST_SPEC, 0, 100_000_000).MarkPending(0)], map[], map[], 1)
  }

  lemma StartWantsFast()
    ensures var x := Apply(INITIAL, Startup(0, FAST_CONFIG, 1)).0; AwaitsFast(x.s) && FastWanted(x.s)
  {
    hide IssueFirstPaint;
    OneJob(FAST_SPEC, 0, 100_000_000);
    var s1 := Started(INITIAL, FAST_CONFIG, 1);
    assert s1.runs.jobs == map[FAST_JOB := NewRuntime(FAST_SPEC, 0, 100_000_000)];
    assert CurrentDemand(s1) == {FAST_JOB};
    assert Sampling(CurrentDemand(s1), s1.runs.jobs) == {FAST_JOB};
    assert Marked(s1.runs.jobs, {FAST_JOB}, 0) == map[FAST_JOB := NewRuntime(FAST_SPEC, 0, 100_000_000).MarkPending(0)];
    assert StartupPanel({FAST_JOB}, s1.runs.jobs) == {FAST_JOB};
  }

  lemma FastStarts(x: Step)
    requires AwaitsFast(x.s) && FastWanted(x.s)
    ensures var y := Dispatch(x).s; AwaitsFast(y) && y.runs.jobs[FAST_JOB].inFlight == Some(FAST_TICKET)
  {
    hide Dispatch;
    assert CurrentDemand(x.s) == {FAST_JOB};
    var c := RankOf(x.s, FAST_JOB);
    assert Candidates(x.s) == {c};
    OneToStart(x, c);
  }

  lemma StartupRuns()
    ensures var s := Handle(INITIAL, Startup(0, FAST_CONFIG, 1)).s;
      AwaitsFast(s) && s.runs.jobs[FAST_JOB].inFlight == Some(FAST_TICKET)
  {
    hide Apply, Dispatch, NextWake, SortActions, AwaitsFast, FastWanted;
    var e := Startup(0, FAST_CONFIG, 1);
    assert INITIAL.(now := 0) == INITIAL;
    StartWantsFast();
    var x := Apply(INITIAL, e).0;
    assert Apply(INITIAL, e).1 == Accepted by { StartIsAccepted(e); }
    assert x.s.lifecycle == Running by { FastIsRunning(x.s); }
    FastStarts(x);
  }

  lemma StartIsAccepted(e: SchedulerEvent)
    requires e.Startup?
    ensures Apply(INITIAL, e).1 == Accepted
  {
    hide StartUp;
  }

  lemma FastIsRunning(s: State)
    requires AwaitsFast(s)
    ensures s.lifecycle == Running
  {
  }

  lemma FastIsBehind(s: State)
    requires Inv(s) && AwaitsFast(s) && s.runs.jobs[FAST_JOB].inFlight == Some(FAST_TICKET)
    ensures var e := JobFinished(155_000_000, FAST_TICKET, Captured, false);
      && EarlyRejection(s, e).None? && BringsPaint(s, e) && LeavesBehind(s, e)
      && Waking(s) && Handle(s, e).disposition == Accepted
  {
    hide Inv, Handle;
    var e := JobFinished(155_000_000, FAST_TICKET, Captured, false);
    LateRejectionIff(s, e);
    assert FAST_JOB in DemandAt(s, e.at);
  }

  /** Such a first paint does happen: the fast job it waited for finishes after 155 milliseconds, the next display
      deadline is due after 200, and the fast job is put 50 milliseconds before it, where the time has passed. */
  lemma FastJobFallsBehind()
    ensures exists events: seq<SchedulerEvent>, e: SchedulerEvent ::
      var s := Run(INITIAL, events);
      BringsPaint(s, e) && Handle(s, e).disposition == Accepted && !WakesAfter(Handle(s, e).acts, e.at)
  {
    hide Handle, Run, AwaitsFast, Inv, LeavesBehind, BringsPaint, WakesAfter;
    RunNothing();
    StartupRuns();
    RunOneMore(INITIAL, [], Startup(0, FAST_CONFIG, 1));
    var events := [] + [Startup(0, FAST_CONFIG, 1)];
    InitialInvariant();
    RunKeepsInvariant(INITIAL, events);
    var s, e := Run(INITIAL, events), JobFinished(155_000_000, FAST_TICKET, Captured, false);
    FastIsBehind(s);
    WakeIsStrictlyLater(s, e);
  }

  // ----- exactly which wake-up

  /** The scheduler has something to do at that time. */
  ghost predicate IsDeadline(s: State, w: Time) {
    || (exists id :: id in s.runs.jobs && Wanted(s, id) && (s.runs.jobs[id].retryDue == Some(w) || s.runs.jobs[id].nominalDue == Some(w)))
    || s.paint.nextDisplay == Some(w) || s.paint.firstPaintDeadline == Some(w)
    || s.view.deactivationDeadline == Some(w) || s.view.activationDeadline == Some(w)
  }

  ghost predicate IsOf(jobs: JobTable, ids: seq<JobId>, w: Time)
    requires forall id :: id in ids ==> id in jobs
  {
    exists id :: id in ids && (jobs[id].retryDue == Some(w) || jobs[id].nominalDue == Some(w))
  }

  lemma {:induction false} EarliestIs(ids: seq<JobId>, jobs: JobTable)
    requires forall id :: id in ids ==> id in jobs
    ensures var r := EarliestJob(ids, jobs);
      && (r.None? ==> forall w: Time :: !IsOf(jobs, ids, w))
      && (r.Some? ==> IsOf(jobs, ids, r.value) && forall w: Time :: IsOf(jobs, ids, w) ==> r.value <= w)
  {
    if ids != [] {
      var front, last := ids[..|ids| - 1], ids[|ids| - 1];
      EarliestIs(front, jobs);
      assert ids == front + [last];
      forall w: Time
        ensures IsOf(jobs, ids, w) <==> IsOf(jobs, front, w) || jobs[last].retryDue == Some(w) || jobs[last].nominalDue == Some(w)
      {
        OneMoreJob(jobs, front, last, w);
      }
      hide IsOf;
    }
  }

  lemma OneMoreJob(jobs: JobTable, front: seq<JobId>, last: JobId, w: Time)
    requires last in jobs && forall id :: id in front ==> id in jobs
    ensures IsOf(jobs, front + [last], w) <==>
      IsOf(jobs, front, w) || jobs[last].retryDue == Some(w) || jobs[last].nominalDue == Some(w)
  {
    var ids := front + [last];
    assert last in ids && forall id :: id in front ==> id in ids;
  }

  lemma JobDeadlines(s: State, w: Time)
    ensures IsOf(s.runs.jobs, InOrder(s.runs.jobs.Keys * CurrentDemand(s)), w) <==>
      exists id :: id in s.runs.jobs && Wanted(s, id) && (s.runs.jobs[id].retryDue == Some(w) || s.runs.jobs[id].nominalDue == Some(w))
  {
    hide CurrentDemand, Wanted;
    var ids := InOrder(s.runs.jobs.Keys * CurrentDemand(s));
    forall id
      ensures id in ids <==> id in s.runs.jobs && Wanted(s, id)
    {
      DemandIsWanted(s, id);
    }
  }

  /** The least of all deadlines, if the scheduler runs and awaits no inventory. */
  ghost predicate IsWake(s: State, w: Time) {
    s.lifecycle == Running && s.handshake.awaiting.None? && IsDeadline(s, w) && forall v: Time :: IsDeadline(s, v) ==> w <= v
  }

  lemma WakeIs(s: State, w: Time)
    ensures NextWake(s) == Some(w) <==> IsWake(s, w)
  {
    hide CurrentDemand, Wanted, EarliestJob, IsOf;
    var ids := InOrder(s.runs.jobs.Keys * CurrentDemand(s));
    EarliestIs(ids, s.runs.jobs);
    forall v: Time
      ensures IsDeadline(s, v) <==> IsOf(s.runs.jobs, ids, v) || SurfaceDeadline(s, v)
    {
      JobDeadlines(s, v);
    }
    hide IsDeadline;
    SurfaceIs(s);
    EarlierIs(EarliestJob(ids, s.runs.jobs), SurfaceWake(s));
  }

  predicate SurfaceDeadline(s: State, w: Time) {
    s.paint.nextDisplay == Some(w) || s.paint.firstPaintDeadline == Some(w)
    || s.view.deactivationDeadline == Some(w) || s.view.activationDeadline == Some(w)
  }

  lemma SurfaceIs(s: State)
    ensures var r := SurfaceWake(s);
      && (r.None? ==> forall w: Time :: !SurfaceDeadline(s, w))
      && (r.Some? ==> SurfaceDeadline(s, r.value) && forall w: Time :: SurfaceDeadline(s, w) ==> r.value <= w)
  {
  }

  lemma EarlierIs(a: Option<Time>, b: Option<Time>)
    ensures var r := Earlier(a, b);
      && (r.None? <==> a.None? && b.None?)
      && (r.Some? ==> (r == a || r == b) && (a.Some? ==> r.value <= a.value) && (b.Some? ==> r.value <= b.value))
  {
  }

  lemma AskedWakes(x: Step, d: EventDisposition, w: Time)
    requires forall a :: a in x.acts ==> !a.ScheduleDeadline?
    ensures ScheduleDeadline(w) in SortActions(Settle(x, d).acts) <==>
      d == Accepted && x.s.lifecycle == Running && NextWake(Dispatch(x).s) == Some(w)
  {
    hide NextWake, StartEach, CandidatesInOrder, Candidates, CurrentDemand;
    CandidatesListed(x.s);
    StartEachSchedulesNothing(x, CandidatesInOrder(Candidates(x.s)));
    var y := Dispatch(x);
    assert SchedulesNothing(y.acts);
  }

  lemma ArmSchedules(s: State, x: Step, gone: Option<JobTicket>)
    requires ArmOk(s, x, gone)
    ensures forall a :: a in x.acts ==> !a.ScheduleDeadline?
  {
  }

  /** An accepted event asks to be woken exactly at the earliest time there is something to do: a retry or deadline of a
      wanted job, the display, the first paint, the end of a grace period or of a wait; and for no other time. */
  lemma WakeIsEarliest(s: State, e: SchedulerEvent, w: Time)
    requires Inv(s)
    ensures var out := Handle(s, e);
      ScheduleDeadline(w) in out.acts <==> out.disposition == Accepted && IsWake(out.s, w)
  {
    hide Inv, Apply, Settle, SortActions, EarlyRejection, ArmOk, NextWake, IsWake, Dispatch;
    if EarlyRejection(s, e).Some? {
      EarlyRejectionCloses(s, e);
    } else {
      var (x, d) := Apply(s.(now := e.at), e);
      ApplyFollows(s, e);
      ArmSchedules(s.(now := e.at), x, Closed(e, d));
      AskedWakes(x, d, w);
      SettledState(x, d);
      WakeIs(Handle(s, e).s, w);
      if d == Accepted && x.s.lifecycle != Running { StoppedSleeps(Handle(s, e).s, w); }
    }
  }

  lemma SettledState(x: Step, d: EventDisposition)
    ensures Settle(x, d).s == if d == Accepted && x.s.lifecycle == Running then Dispatch(x).s else x.s
  {
    hide Dispatch, NextWake;
  }

  lemma StoppedSleeps(s: State, w: Time)
    requires s.lifecycle != Running
    ensures !IsWake(s, w)
  {
  }
}
